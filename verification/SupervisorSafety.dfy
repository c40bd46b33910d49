/**
 That the daemon's three collections agree with each other: exactly when they do, and what else
 holds as long as no type is 0.
*/
module SupervisorSafety {
  import opened Supervisor
  import opened SupervisorTable

  // ---------- The daemon's collections ----------

  /** The collections agree, as far as the boosters recorded for these types are concerned. */
  ghost predicate RecordsOf(d: DaemonState, types: set<char>) {
    && NoDuplicates(d.children) && 0 !in d.children
    && (forall t | t in d.typeToPid && t in types ::
          d.typeToPid[t] in d.children && d.typeToPid[t] !in d.invokerOf)
    && (forall t, u | t in d.typeToPid && u in d.typeToPid && t in types && u in types && t != u ::
          d.typeToPid[t] != d.typeToPid[u])
    && (forall p | p in d.invokerOf :: p in d.children)
  }

  /** Children are duplicate-free; recorded pids are nonzero, pairwise distinct, children, and
      never mapped to an invoker; only children are mapped to invokers. */
  ghost predicate Records(d: DaemonState) {
    RecordsOf(d, d.typeToPid.Keys)
  }

  ghost predicate RecordsBut(d: DaemonState, kind: char) {
    RecordsOf(d, d.typeToPid.Keys - {kind})
  }

  lemma ForkKeepsRecords(d: DaemonState, kind: char, newPid: Pid)
    requires RecordsBut(d, kind) && newPid != 0 && newPid !in d.children
    ensures Records(ForkBooster(d, kind, newPid))
  {
    var d' := ForkBooster(d, kind, newPid);
    assert forall p | p in d.children :: p in d'.children;
    assert newPid in d'.children;
  }

  lemma RecordInvokerKeepsRecords(d: DaemonState, kind: char, invoker: int)
    requires Records(d)
    ensures RecordsBut(RecordInvoker(d, kind, invoker), kind)
  {
  }

  lemma ReadKeepsRecords(d: DaemonState, kind: char, invoker: int, newPid: Pid)
    requires Records(d) && newPid != 0 && newPid !in d.children
    ensures Records(ReadAnnouncement(d, kind, invoker, newPid))
  {
    RecordInvokerKeepsRecords(d, kind, invoker);
    hide RecordsOf;
    ForkKeepsRecords(RecordInvoker(d, kind, invoker), kind, newPid);
  }

  /** The child is the one recorded for type 0. As 0 doubles as "no such booster" when a pid is looked
      up, such a child is not replaced. */
  predicate OfTypeZero(d: DaemonState, i: nat)
    requires i < |d.children|
  {
    '\0' in d.typeToPid && d.typeToPid['\0'] == d.children[i]
  }

  lemma ForgetKeepsRecords(d: DaemonState, i: nat)
    requires Records(d) && i < |d.children|
    ensures var kind := TypeForPid(d.typeToPid, d.children[i]);
            && RecordsBut(Forget(d, i), kind)
            && (kind == '\0' && !OfTypeZero(d, i) ==> Records(Forget(d, i)))
            && (kind != '\0' ==> !OfTypeZero(d, i))
  {
    EraseFacts(d.children, i);
  }

  /** A reap keeps the collections in agreement if and only if the child is not the one recorded for
      type 0. */
  lemma ReapKeepsRecordsIff(d: DaemonState, i: nat, newPid: Pid)
    requires Records(d) && i < |d.children| && newPid != 0 && newPid !in EraseAt(d.children, i)
    ensures Records(Reap(d, i, newPid)) <==> !OfTypeZero(d, i)
  {
    var kind := TypeForPid(d.typeToPid, d.children[i]);
    ForgetKeepsRecords(d, i);
    if kind != '\0' {
      ForkKeepsRecords(Forget(d, i), kind, newPid);
    } else if OfTypeZero(d, i) {
      EraseFacts(d.children, i);
      assert d.typeToPid['\0'] !in Forget(d, i).children;
    }
  }

  /** No entry of the booster-to-invoker map is ever overwritten by an announcement, whatever the
      announcement says, and a pid that is forked now carries no invoker left by an earlier holder. */
  lemma InvokersAreNeverOverwritten(d: DaemonState, kind: char, invoker: int, newPid: Pid)
    requires Records(d) && newPid !in d.children
    ensures var d' := ReadAnnouncement(d, kind, invoker, newPid);
            && (forall p | p in d.invokerOf :: p in d'.invokerOf && d'.invokerOf[p] == d.invokerOf[p])
            && newPid !in d'.invokerOf
  {
    var booster := PidForType(d.typeToPid, kind);
    if booster != 0 {
      assert booster !in d.invokerOf && booster in d.children;
    }
  }

  /** Looking up the pid of a type and the type of a pid undo each other, for every recorded booster. */
  lemma LookupsAreInverse(d: DaemonState, kind: char, pid: Pid)
    requires Records(d)
    ensures kind in d.typeToPid ==>
              PidForType(d.typeToPid, kind) != 0 && TypeForPid(d.typeToPid, PidForType(d.typeToPid, kind)) == kind
    ensures TypeForPid(d.typeToPid, pid) != '\0' ==> PidForType(d.typeToPid, TypeForPid(d.typeToPid, pid)) == pid
    ensures kind !in d.typeToPid ==> PidForType(d.typeToPid, kind) == 0
  {
    if kind in d.typeToPid {
      assert d.typeToPid[kind] in d.children;
      assert TypeForPid(d.typeToPid, d.typeToPid[kind]) in d.typeToPid;
    }
  }

  // ---------- Exactly when the collections agree ----------

  /** No child is reaped that is recorded for type 0. */
  ghost predicate RuleZ(s: Sys, e: Event)
    requires Enabled(s, e)
  {
    e.Dmn? && e.dmn.ScanReap? ==> !OfTypeZero(s.d, s.pc.i)
  }

  ghost predicate ObeysZ(s: Sys, es: seq<Event>)
    requires CanRun(s, es)
    decreases |es|
  {
    es == [] || (RuleZ(s, es[0]) && ObeysZ(Step(s, es[0]), es[1..]))
  }

  /** The collections agree in every state that the run passes through. */
  ghost predicate RecordsThroughout(s: Sys, es: seq<Event>)
    requires CanRun(s, es)
    decreases |es|
  {
    Records(s.d) && (es == [] || RecordsThroughout(Step(s, es[0]), es[1..]))
  }

  lemma OtherStepKeepsRecords(s: Sys, e: Event)
    requires Kernel(s) && Records(s.d) && Enabled(s, e) && !(e.Dmn? && e.dmn.ScanReap?)
    ensures Records(Step(s, e).d)
  {
    if e.Dmn? && e.dmn.BootFork? {
      assert e.dmn.newPid !in s.d.children;
      ForkKeepsRecords(s.d, s.types[s.pc.next], e.dmn.newPid);
      hide RecordsOf;
    } else if e.Dmn? && e.dmn.TakeAnnouncement? {
      assert e.dmn.newPid !in s.d.children;
      ReadKeepsRecords(s.d, s.w.pipe[0].kind, s.w.pipe[0].invoker, e.dmn.newPid);
      hide RecordsOf, ReadAnnouncement;
    } else {
      assert Step(s, e).d == s.d.(bootMode := Step(s, e).d.bootMode);
      hide Step;
    }
  }

  lemma NewcomerIsNoChild(s: Sys, newPid: Pid)
    requires Kernel(s) && DaemonEnabled(s, ScanReap(newPid))
    ensures newPid != 0 && newPid !in EraseAt(s.d.children, s.pc.i)
  {
    EraseFacts(s.d.children, s.pc.i);
    BuriedFacts(s);
  }

  /** Exactly the steps that obey rule Z keep the collections in agreement. */
  lemma StepKeepsRecordsIff(s: Sys, e: Event)
    requires Sound(s) && Records(s.d) && Enabled(s, e)
    ensures Records(Step(s, e).d) <==> RuleZ(s, e)
  {
    hide Records;
    if e.Dmn? && e.dmn.ScanReap? {
      NewcomerIsNoChild(s, e.dmn.newPid);
      ReapKeepsRecordsIff(s.d, s.pc.i, e.dmn.newPid);
      hide Sound, Reap, Spawn, Bury, FreshPid;
    } else {
      OtherStepKeepsRecords(s, e);
    }
  }

  lemma {:induction false} RunKeepsRecordsIff(s: Sys, es: seq<Event>)
    requires Sound(s) && Records(s.d) && CanRun(s, es)
    ensures RecordsThroughout(s, es) <==> ObeysZ(s, es)
    ensures ObeysZ(s, es) ==> Records(Run(s, es).d)
    decreases |es|
  {
    hide Sound, Records, RuleZ, Step;
    if es != [] {
      StepKeepsSound(s, es[0]);
      StepKeepsRecordsIff(s, es[0]);
      if RuleZ(s, es[0]) {
        RunKeepsRecordsIff(Step(s, es[0]), es[1..]);
      } else {
        NotThroughout(Step(s, es[0]), es[1..]);
      }
    }
  }

  lemma NotThroughout(s: Sys, es: seq<Event>)
    requires CanRun(s, es) && !Records(s.d)
    ensures !RecordsThroughout(s, es)
  {
  }

  /** Over every run from start-up, whatever the types and whatever is read, the collections agree in
      every state if and only if no child recorded for type 0 is reaped. */
  lemma RecordsHoldIff(types: seq<char>, bootMode: bool, es: seq<Event>)
    requires CanRun(Start(types, bootMode), es)
    ensures RecordsThroughout(Start(types, bootMode), es) <==> ObeysZ(Start(types, bootMode), es)
  {
    SoundnessTheorem(types, bootMode, []);
    RunKeepsRecordsIff(Start(types, bootMode), es);
  }

  /** So in every state reached without reaping such a child, spelled out: */
  lemma RecordsTheorem(types: seq<char>, bootMode: bool, es: seq<Event>)
    requires CanRun(Start(types, bootMode), es) && ObeysZ(Start(types, bootMode), es)
    ensures var d := Run(Start(types, bootMode), es).d;
            && (forall i, j | 0 <= i < j < |d.children| :: d.children[i] != d.children[j])
            && (forall t | t in d.typeToPid ::
                  d.typeToPid[t] != 0 && d.typeToPid[t] in d.children && d.typeToPid[t] !in d.invokerOf)
            && (forall t, u | t in d.typeToPid && u in d.typeToPid && t != u :: d.typeToPid[t] != d.typeToPid[u])
            && (forall p | p in d.invokerOf :: p in d.children)
  {
    SoundnessTheorem(types, bootMode, []);
    RunKeepsRecordsIff(Start(types, bootMode), es);
  }

  // ---------- When no type is 0 ----------

  /** No plugin, process, record or announcement is of type 0, and plugins have different types. */
  ghost predicate Kinds(s: Sys) {
    && GoodTypes(s.types) && '\0' !in s.d.typeToPid
    && (forall k | 0 <= k < |s.w.procs| :: s.w.procs[k].kind != '\0')
    && (forall j | 0 <= j < |s.w.pipe| :: s.w.pipe[j].kind != '\0')
  }

  ghost predicate Safe(s: Sys) {
    Sound(s) && Records(s.d) && Kinds(s)
  }

  /** In a garbled pipe no type byte reads as 0. */
  ghost predicate NonzeroTypeByte(e: Event) {
    e.Env? && e.env.Garble? ==> forall j | 0 <= j < |e.env.pipe| :: e.env.pipe[j].kind != '\0'
  }

  ghost predicate NonzeroTypeBytes(es: seq<Event>) {
    forall i | 0 <= i < |es| :: NonzeroTypeByte(es[i])
  }

  lemma RuleAGarblesNothing(es: seq<Event>)
    requires ObeysA(es)
    ensures NonzeroTypeBytes(es)
  {
    forall i | 0 <= i < |es| ensures NonzeroTypeByte(es[i]) {
      assert RuleA(es[i]);
    }
  }

  lemma EnvKeepsKinds(s: Sys, e: EnvEvent)
    requires Kinds(s) && EnvEnabled(s.w, e) && NonzeroTypeByte(Env(e))
    ensures Kinds(Step(s, Env(e)))
  {
    hide Holds;
  }

  lemma ForkKeepsKinds(s: Sys, e: DaemonEvent)
    requires Kinds(s) && DaemonEnabled(s, e) && (e.BootFork? || e.TakeAnnouncement?)
    ensures Kinds(DaemonStep(s, e))
  {
    hide Holds;
  }

  lemma ReapKeepsKinds(s: Sys, newPid: Pid)
    requires Kinds(s) && DaemonEnabled(s, ScanReap(newPid))
    ensures Kinds(AfterReap(s, newPid))
  {
    hide Holds;
  }

  lemma QuietKeepsKinds(s: Sys, e: DaemonEvent)
    requires Kinds(s) && DaemonEnabled(s, e) && (IsQuiet(e) || e.TakeUsr1?)
    ensures Kinds(DaemonStep(s, e))
  {
    if e.TakeUsr1? {
      TermFrame(s.w.(usr1Pipe := s.w.usr1Pipe - 1), RecordedPids(s.d));
    }
    hide SendTerm, RecordedPids, Holds;
  }

  lemma StepKeepsKinds(s: Sys, e: Event)
    requires Kinds(s) && Enabled(s, e) && NonzeroTypeByte(e)
    ensures Kinds(Step(s, e))
  {
    hide Kinds, EnvStep, DaemonStep;
    if e.Env? {
      EnvKeepsKinds(s, e.env);
    } else if e.dmn.ScanReap? {
      ReapIsAfterReap(s, e.dmn.newPid);
      ReapKeepsKinds(s, e.dmn.newPid);
    } else if e.dmn.BootFork? || e.dmn.TakeAnnouncement? {
      ForkKeepsKinds(s, e.dmn);
    } else {
      QuietKeepsKinds(s, e.dmn);
    }
  }

  lemma ReapIsAfterReap(s: Sys, newPid: Pid)
    requires DaemonEnabled(s, ScanReap(newPid))
    ensures DaemonStep(s, ScanReap(newPid)) == AfterReap(s, newPid)
  {
  }

  lemma StepKeepsSafe(s: Sys, e: Event)
    requires Safe(s) && Enabled(s, e) && NonzeroTypeByte(e)
    ensures Safe(Step(s, e))
  {
    NoTypeZero(s, e);
    hide Sound, Records, Kinds, RuleZ, Step;
    StepKeepsSound(s, e);
    StepKeepsRecordsIff(s, e);
    StepKeepsKinds(s, e);
  }

  lemma NoTypeZero(s: Sys, e: Event)
    requires Kinds(s) && Enabled(s, e)
    ensures RuleZ(s, e)
  {
  }

  lemma {:induction false} RunKeepsSafe(s: Sys, es: seq<Event>)
    requires Safe(s) && CanRun(s, es) && NonzeroTypeBytes(es)
    ensures Safe(Run(s, es)) && ObeysZ(s, es)
    decreases |es|
  {
    if es != [] {
      assert NonzeroTypeByte(es[0]);
      NoTypeZero(s, es[0]);
      hide Safe, Step, RuleZ;
      StepKeepsSafe(s, es[0]);
      RunKeepsSafe(Step(s, es[0]), es[1..]);
    }
  }

  /** If no plugin is of type 0 and no type byte reads as 0, then no booster is ever recorded for type
      0, rule Z is kept, and every state is safe. */
  lemma SafetyTheorem(types: seq<char>, bootMode: bool, es: seq<Event>)
    requires GoodTypes(types) && CanRun(Start(types, bootMode), es) && NonzeroTypeBytes(es)
    ensures Safe(Run(Start(types, bootMode), es)) && ObeysZ(Start(types, bootMode), es)
  {
    SoundnessTheorem(types, bootMode, []);
    RunKeepsSafe(Start(types, bootMode), es);
  }

  // ---------- The type byte 0 ----------

  /** Interleaved announcements can leave a 0 where a type byte is read. Here is what follows: the
      process forked for type 0 dies and is not replaced, and the pid of a process that no longer
      exists stays recorded. */
  lemma ZeroTypeByteExample() returns (es: seq<Event>)
    ensures CanRun(Start(['m'], false), es)
    ensures var d := Run(Start(['m'], false), es).d;
            d.children == [1] && '\0' in d.typeToPid && d.typeToPid['\0'] == 2 && !Records(d)
  {
    hide Run, CanRun;
    var s := Start(['m'], false);
    es := ZeroTypeIsScanned();
    es := Extend(s, es, Dmn(ScanReap(3)));
    assert Run(s, es).d.typeToPid == map['m' := 1, '\0' := 2];
  }

  lemma ZeroTypeIsScanned() returns (es: seq<Event>)
    ensures CanRun(Start(['m'], false), es)
    ensures var s := Run(Start(['m'], false), es);
            && s.d == DaemonState([1, 2], map['m' := 1, '\0' := 2], map[], false)
            && s.pc == Scanning(1, false, false) && ZombiePid(s.w, 2) && 3 !in s.w.holder
  {
    hide Run, CanRun, TypeForPid;
    var s := Start(['m'], false);
    es := ZeroTypeIsForked();
    es := Extend(s, es, Env(Die(1, Exited(0))));
    es := Extend(s, es, Env(DeliverChld));
    es := Extend(s, es, Dmn(PassEnd));
    es := Extend(s, es, Dmn(Wake));
    es := Extend(s, es, Dmn(StartScan));
    es := Extend(s, es, Dmn(ScanLive));
  }

  /** Two announcements met in the pipe, and the first frame reads as type 0. */
  lemma ZeroTypeIsForked() returns (es: seq<Event>)
    ensures CanRun(Start(['m'], false), es)
    ensures var s := Run(Start(['m'], false), es);
            && s.d == DaemonState([1, 2], map['m' := 1, '\0' := 2], map[], false)
            && s.w.holder == map[1 := 0, 2 := 1] && |s.w.procs| == 2
            && s.w.procs[0].status.Live? && s.w.procs[1].status.Live?
            && s.w.pipe == [] && s.w.chldPipe == 0 && s.w.termPipe == 0 && s.w.usr1Pipe == 0
            && s.pc == Handling(false, false, false, false)
  {
    hide Run, CanRun, TypeForPid;
    var s := Start(['m'], false);
    EmptyRun(s);
    es := Extend(s, [], Dmn(BootFork(1)));
    es := Extend(s, es, Dmn(BootDone));
    es := Extend(s, es, Env(Garble([Announcement('\0', 0, 0)])));
    es := Extend(s, es, Dmn(Wake));
    es := Extend(s, es, Dmn(TakeAnnouncement(2)));
  }
}
