/**
 What the supervisor keeps when announcements arrive whole (rule A) and in time.

 Rule D: a booster's announcement is read before the booster's own death is reaped. The main loop
 reads the booster pipe before it reaps, but only one announcement a pass, so D is a rule about
 schedules. D is enough for everything here, and a little more than enough. What is exactly needed
 is rule R, that no announcement of a reaped booster is read, for the pool (PoolHoldsIff), and rule
 S, that no killed booster is reaped whose waiting invoker has not been heard of, for the signals
 (SignalsHoldIff).
*/
module SupervisorPool {
  import opened Supervisor
  import opened SupervisorTable
  import opened SupervisorSignals
  import opened SupervisorSafety

  // ---------- Invariants ----------

  ghost predicate Unread(w: World, k: nat) {
    exists j :: 0 <= j < |w.pipe| && w.pipe[j].sender == k
  }

  /** Booster k is idle, or the daemon has not heard yet that it is not. */
  ghost predicate Current(w: World, k: nat)
    requires k < |w.procs|
  {
    !w.procs[k].stage.Announced? || Unread(w, k)
  }

  ghost predicate Recorded(s: Sys, k: nat)
    requires k < |s.w.procs|
  {
    var p := s.w.procs[k];
    p.kind in s.d.typeToPid && s.d.typeToPid[p.kind] == p.pid
  }

  /** Every announcement in the pipe is the only one of its booster, and tells the truth. */
  ghost predicate Queue(w: World) {
    && (forall j | 0 <= j < |w.pipe| ::
          var m := w.pipe[j];
          m.sender < |w.procs| && w.procs[m.sender].stage.Announced?
          && m.kind == w.procs[m.sender].kind && m.invoker == ReportedInvoker(w.procs[m.sender].stage))
    && (forall i, j | 0 <= i < j < |w.pipe| :: w.pipe[i].sender != w.pipe[j].sender)
  }

  /** The recorded boosters are exactly the current ones, one for each started type. */
  ghost predicate Pool(s: Sys) {
    && (forall k | 0 <= k < |s.w.procs| && Holds(s.w, k) :: Current(s.w, k) <==> Recorded(s, k))
    && (forall t | t in s.d.typeToPid ::
          KnownPid(s.w, s.d.typeToPid[t]) && s.w.procs[s.w.holder[s.d.typeToPid[t]]].kind == t)
    && (forall t :: t in s.d.typeToPid <==> t in Started(s))
  }

  /** A child is mapped to an invoker just when its announcement has been read and the invoker
      waits, and then it is mapped to the invoker whose request it accepted. */
  ghost predicate Mapped(s: Sys) {
    forall k | 0 <= k < |s.w.procs| && Holds(s.w, k) ::
      var p := s.w.procs[k];
      && (p.pid in s.d.invokerOf <==> !Current(s.w, k) && Answers(p) != 0)
      && (p.pid in s.d.invokerOf ==> s.d.invokerOf[p.pid] == Answers(p))
  }

  /** Every announcement in the pipe is of a recorded type. */
  ghost predicate Typed(s: Sys) {
    forall j | 0 <= j < |s.w.pipe| :: s.w.pipe[j].kind in s.d.typeToPid
  }

  ghost predicate PoolInv(s: Sys) {
    Safe(s) && Queue(s.w) && Pool(s) && Mapped(s) && Typed(s)
  }

  ghost predicate Inv(s: Sys) {
    PoolInv(s) && Settled(s.w)
  }

  // ---------- The rules ----------

  /** The announcement that is read next comes from a booster that has not been reaped. */
  ghost predicate RuleR(s: Sys, e: Event)
    requires Enabled(s, e)
  {
    e.Dmn? && e.dmn.TakeAnnouncement? ==> Holds(s.w, s.w.pipe[0].sender)
  }

  /** The dead child was killed by a signal and its invoker waits, but the daemon has not read its
      announcement and so does not know the invoker. */
  ghost predicate UnknownInvoker(s: Sys)
    requires AtZombie(s)
  {
    var k := s.w.holder[s.d.children[s.pc.i]];
    Unread(s.w, k) && s.w.procs[k].status.how.Killed? && Answers(s.w.procs[k]) != 0
  }

  ghost predicate RuleS(s: Sys, e: Event)
    requires Enabled(s, e)
  {
    e.Dmn? && e.dmn.ScanReap? ==> !UnknownInvoker(s)
  }

  ghost predicate RuleD(s: Sys, e: Event)
    requires Enabled(s, e)
  {
    e.Dmn? && e.dmn.ScanReap? ==> !Unread(s.w, s.w.holder[s.d.children[s.pc.i]])
  }

  ghost predicate Disciplined(s: Sys, es: seq<Event>)
    requires CanRun(s, es)
    decreases |es|
  {
    es == [] || (RuleA(es[0]) && RuleD(s, es[0]) && Disciplined(Step(s, es[0]), es[1..]))
  }

  // ---------- Environment steps ----------

  lemma EnvKeepsQueue(w: World, e: EnvEvent)
    requires Queue(w) && EnvEnabled(w, e) && !e.Garble?
    ensures Queue(EnvStep(w, e))
  {
    var w' := EnvStep(w, e);
    forall k | 0 <= k < |w.procs|
      ensures Holds(w', k) == Holds(w, k) && w'.procs[k].kind == w.procs[k].kind
      ensures w.procs[k].stage.Announced? ==> w'.procs[k].stage == w.procs[k].stage
    {
    }
    if e.Announce? {
      var stage := w'.procs[e.k].stage;
      assert stage.Announced? && ReportedInvoker(stage) == ReportedInvoker(w.procs[e.k].stage);
    }
  }

  lemma EnvUnread(s: Sys, e: EnvEvent, k: nat)
    requires EnvEnabled(s.w, e) && !e.Garble? && k < |s.w.procs|
    ensures Unread(EnvStep(s.w, e), k) <==> Unread(s.w, k) || e == Announce(k)
  {
    var w' := EnvStep(s.w, e);
    if e.Announce? {
      assert w'.pipe[|s.w.pipe|].sender == e.k;
      if Unread(s.w, k) {
        var j :| 0 <= j < |s.w.pipe| && s.w.pipe[j].sender == k;
        assert w'.pipe[j].sender == k;
      }
    }
  }

  lemma EnvCurrent(s: Sys, e: EnvEvent)
    requires EnvEnabled(s.w, e) && !e.Garble?
    ensures var w' := EnvStep(s.w, e);
            && w'.holder == s.w.holder && |w'.procs| == |s.w.procs|
            && forall k | 0 <= k < |s.w.procs| ::
                 && Holds(w', k) == Holds(s.w, k) && Current(w', k) == Current(s.w, k)
                 && w'.procs[k].pid == s.w.procs[k].pid && w'.procs[k].kind == s.w.procs[k].kind
                 && (Current(w', k) || Answers(w'.procs[k]) == Answers(s.w.procs[k]))
  {
    EnvFrame(s.w, e);
    forall k | 0 <= k < |s.w.procs|
      ensures Current(EnvStep(s.w, e), k) == Current(s.w, k)
      ensures Current(s.w, k) || Answers(EnvStep(s.w, e).procs[k]) == Answers(s.w.procs[k])
    {
      EnvUnread(s, e, k);
    }
  }

  lemma EnvKeepsPool(s: Sys, e: EnvEvent)
    requires Pool(s) && Mapped(s) && Typed(s) && EnvEnabled(s.w, e) && !e.Garble?
    requires forall k | 0 <= k < |s.w.procs| && s.w.procs[k].status.Live? :: Holds(s.w, k)
    ensures Pool(Step(s, Env(e))) && Mapped(Step(s, Env(e))) && Typed(Step(s, Env(e)))
  {
    EnvCurrent(s, e);
    assert e.Announce? ==> Current(s.w, e.k) && Recorded(s, e.k);
    assert Typed(Step(s, Env(e)));
    hide Typed;
    hide EnvStep, EnvEnabled, Current, Holds, Answers;
    assert Mapped(Step(s, Env(e))) by {
      hide Pool, Recorded;
    }
    hide Mapped;
    assert forall k | 0 <= k < |s.w.procs| :: Recorded(Step(s, Env(e)), k) == Recorded(s, k);
  }

  // ---------- A new booster ----------

  lemma SpawnKeepsQueue(w: World, kind: char, boot: bool, newPid: Pid)
    requires Queue(w) && FreshPid(w, newPid)
    ensures var w' := Spawn(w, kind, boot, newPid);
            && Queue(w') && !Unread(w', |w.procs|)
            && (forall k | 0 <= k < |w.procs| :: w'.procs[k] == w.procs[k] && Holds(w', k) == Holds(w, k))
            && (forall k | 0 <= k < |w.procs| :: Unread(w', k) == Unread(w, k))
  {
    var w' := Spawn(w, kind, boot, newPid);
    assert forall k | 0 <= k < |w.procs| :: w'.procs[k] == w.procs[k] && Holds(w', k) == Holds(w, k);
  }

  /** The pool and the map of invokers with no claim made about `kind`, whose booster is about to
      be replaced: no unreaped booster of that type is current any more. */
  ghost predicate PoolBut(s: Sys, kind: char) {
    && (forall k | 0 <= k < |s.w.procs| && Holds(s.w, k) ::
          Current(s.w, k) <==> s.w.procs[k].kind != kind && Recorded(s, k))
    && (forall t | t in s.d.typeToPid && t != kind ::
          KnownPid(s.w, s.d.typeToPid[t]) && s.w.procs[s.w.holder[s.d.typeToPid[t]]].kind == t)
  }

  ghost function Replaced(s: Sys, kind: char, newPid: Pid): Sys {
    s.(d := ForkBooster(s.d, kind, newPid), w := Spawn(s.w, kind, s.d.bootMode, newPid))
  }

  lemma ReplacementIsCurrent(s: Sys, kind: char, newPid: Pid)
    requires Queue(s.w) && PoolBut(s, kind) && FreshPid(s.w, newPid)
    requires forall k | 0 <= k < |s.w.procs| && Holds(s.w, k) :: s.w.procs[k].pid != newPid
    ensures var s' := Replaced(s, kind, newPid);
            forall k | 0 <= k < |s'.w.procs| && Holds(s'.w, k) ::
              && (Current(s'.w, k) <==> Recorded(s', k))
              && (k < |s.w.procs| ==>
                    Holds(s.w, k) && s'.w.procs[k] == s.w.procs[k] && Current(s'.w, k) == Current(s.w, k))
  {
    SpawnKeepsQueue(s.w, kind, s.d.bootMode, newPid);
  }

  lemma ReplacementCompletesPool(s: Sys, kind: char, newPid: Pid)
    requires Queue(s.w) && PoolBut(s, kind) && Mapped(s) && FreshPid(s.w, newPid)
    requires newPid !in s.d.invokerOf
    requires forall t :: t in Started(s) <==> t in s.d.typeToPid || t == kind
    requires Typed(s)
    ensures Pool(Replaced(s, kind, newPid)) && Mapped(Replaced(s, kind, newPid)) && Typed(Replaced(s, kind, newPid))
  {
    var s' := Replaced(s, kind, newPid);
    ReplacementIsCurrent(s, kind, newPid);
    assert Pool(s') by {
      SpawnFacts(s.w, kind, s.d.bootMode, newPid);
    }
    assert s'.w.procs[|s.w.procs|] == Proc(newPid, kind, s.d.bootMode, Waiting, Live, false);
  }

  // ---------- Reading an announcement ----------

  /** Under the invariant the recorded booster of the announced type is the announcer itself, unless
      that has been reaped. */
  lemma AnnouncerIsRecorded(s: Sys)
    requires PoolInv(s) && s.w.pipe != [] && Holds(s.w, s.w.pipe[0].sender)
    ensures var m := s.w.pipe[0];
            PidForType(s.d.typeToPid, m.kind) == s.w.procs[m.sender].pid != 0
  {
    var k := s.w.pipe[0].sender;
    assert Unread(s.w, k);
    assert Current(s.w, k) && Recorded(s, k);
    assert s.w.procs[k].pid in s.d.children;
  }

  lemma PopUnread(w: World, k: nat)
    requires Queue(w) && w.pipe != []
    ensures Unread(w.(pipe := w.pipe[1..]), k) <==> Unread(w, k) && k != w.pipe[0].sender
  {
    var w1 := w.(pipe := w.pipe[1..]);
    if Unread(w, k) && k != w.pipe[0].sender {
      var j :| 0 <= j < |w.pipe| && w.pipe[j].sender == k;
      assert w1.pipe[j - 1].sender == k;
    }
    if Unread(w1, k) {
      var j :| 0 <= j < |w1.pipe| && w1.pipe[j].sender == k;
      assert w.pipe[j + 1].sender == k;
    }
  }

  /** The state after the invoker has been recorded and before the replacement is forked. */
  ghost function Noted(s: Sys): Sys
    requires s.w.pipe != [] && s.pc.Handling?
  {
    s.(d := RecordInvoker(s.d, s.w.pipe[0].kind, s.w.pipe[0].invoker),
       w := s.w.(pipe := s.w.pipe[1..]), pc := s.pc.(announce := false), taken := s.taken + 1)
  }

  lemma NotedCurrent(s: Sys)
    requires Queue(s.w) && Pool(s) && s.w.pipe != [] && s.pc.Handling? && Holds(s.w, s.w.pipe[0].sender)
    ensures var m := s.w.pipe[0];
            && Recorded(s, m.sender)
            && forall k | 0 <= k < |s.w.procs| && Holds(s.w, k) ::
                 && (Current(Noted(s).w, k) <==> Current(s.w, k) && k != m.sender)
                 && (k != m.sender ==> s.w.procs[k].pid != s.w.procs[m.sender].pid)
                 && (k != m.sender && s.w.procs[k].kind == m.kind ==> !Current(s.w, k))
  {
    var m := s.w.pipe[0];
    assert Unread(s.w, m.sender) && Current(s.w, m.sender);
    forall k | 0 <= k < |s.w.procs| && Holds(s.w, k)
      ensures Current(Noted(s).w, k) <==> Current(s.w, k) && k != m.sender
    {
      PopUnread(s.w, k);
    }
  }

  lemma NotedFacts(s: Sys)
    requires s.w.pipe != [] && s.pc.Handling? && Holds(s.w, s.w.pipe[0].sender)
    requires PoolInv(s)
    ensures var s1 := Noted(s);
            Queue(s1.w) && PoolBut(s1, s.w.pipe[0].kind) && Mapped(s1) && Typed(s1)
  {
    hide Safe, Queue, Pool, PoolBut, Mapped;
    NotedQueue(s);
    NotedPool(s);
    NotedMapped(s);
  }

  lemma NotedPool(s: Sys)
    requires s.w.pipe != [] && s.pc.Handling? && Holds(s.w, s.w.pipe[0].sender)
    requires Queue(s.w) && Pool(s)
    ensures PoolBut(Noted(s), s.w.pipe[0].kind)
  {
    assert s.w.pipe[0].kind == s.w.procs[s.w.pipe[0].sender].kind;
    hide Queue, Current;
    NotedCurrent(s);
    assert forall k | 0 <= k < |s.w.procs| :: Holds(Noted(s).w, k) == Holds(s.w, k);
    hide Holds;
    assert forall k | 0 <= k < |s.w.procs| :: Recorded(Noted(s), k) == Recorded(s, k);
  }

  lemma NotedMapped(s: Sys)
    requires s.w.pipe != [] && s.pc.Handling? && Holds(s.w, s.w.pipe[0].sender)
    requires PoolInv(s)
    ensures Mapped(Noted(s))
  {
    AnnouncerIsRecorded(s);
    NotedCurrent(s);
    var m := s.w.pipe[0];
    assert Answers(s.w.procs[m.sender]) == m.invoker && Holds(s.w, m.sender) && Current(s.w, m.sender) by {
      assert Unread(s.w, m.sender);
    }
    assert forall k | 0 <= k < |s.w.procs| :: Holds(Noted(s).w, k) == Holds(s.w, k);
    hide Safe, Queue, Current, Pool, Typed, Recorded, Holds, Answers;
  }

  lemma NotedQueue(s: Sys)
    requires Queue(s.w) && s.w.pipe != [] && s.pc.Handling?
    ensures Queue(Noted(s).w)
  {
  }

  lemma ReadIsNoteAndReplace(s: Sys, newPid: Pid)
    requires DaemonEnabled(s, TakeAnnouncement(newPid))
    ensures AfterRead(s, newPid) == Replaced(Noted(s), s.w.pipe[0].kind, newPid)
    ensures FreshPid(Noted(s).w, newPid) && Started(Noted(s)) == Started(s) && Noted(s).d.typeToPid == s.d.typeToPid
  {
  }

  lemma TakeKeepsInv(s: Sys, newPid: Pid)
    requires DaemonEnabled(s, TakeAnnouncement(newPid)) && Holds(s.w, s.w.pipe[0].sender)
    requires PoolInv(s)
    ensures PoolInv(AfterRead(s, newPid))
  {
    var m := s.w.pipe[0];
    var s1 := Noted(s);
    ReadIsNoteAndReplace(s, newPid);
    StepKeepsSafe(s, Dmn(TakeAnnouncement(newPid)));
    NotedFacts(s);
    NewcomerIsUnmapped(s, newPid);
    assert (forall t :: t in Started(s) <==> t in s.d.typeToPid) && m.kind in s.d.typeToPid;
    hide Safe, Queue, Pool, PoolBut, Mapped, Typed, Noted, AfterRead, Started, FreshPid;
    ReplacementCompletesPool(s1, m.kind, newPid);
    SpawnKeepsQueue(s1.w, m.kind, s.d.bootMode, newPid);
    assert s1.d.bootMode == s.d.bootMode by {
      NotedKeepsMode(s);
    }
  }

  lemma NotedKeepsMode(s: Sys)
    requires s.w.pipe != [] && s.pc.Handling?
    ensures Noted(s).d.bootMode == s.d.bootMode
  {
  }

  lemma NewcomerIsUnmapped(s: Sys, newPid: Pid)
    requires PoolInv(s) && s.w.pipe != [] && s.pc.Handling? && Holds(s.w, s.w.pipe[0].sender) && FreshPid(s.w, newPid)
    ensures newPid !in Noted(s).d.invokerOf
  {
    AnnouncerIsRecorded(s);
    assert newPid !in s.d.children;
  }

  /** Reading the announcement of a reaped booster always breaks the pool: the booster that is
      recorded for its type is idle, or unread itself, and loses its place to a new one. */
  lemma StaleAnnouncementBreaksPool(s: Sys, newPid: Pid)
    requires Safe(s) && Pool(s) && DaemonEnabled(s, TakeAnnouncement(newPid))
    requires !Holds(s.w, s.w.pipe[0].sender) && s.w.pipe[0].kind in s.d.typeToPid
    ensures !Pool(AfterRead(s, newPid))
  {
    var kind := s.w.pipe[0].kind;
    var s' := AfterRead(s, newPid);
    var pid := s.d.typeToPid[kind];
    var k := s.w.holder[pid];
    assert Holds(s.w, k) && Recorded(s, k) && Current(s.w, k);
    assert Current(s'.w, k) by {
      if Unread(s.w, k) {
        var j :| 0 <= j < |s.w.pipe| && s.w.pipe[j].sender == k;
        assert s'.w.pipe[j - 1].sender == k;
      }
    }
    assert Holds(s'.w, k) && s'.d.typeToPid[kind] == newPid != pid;
    assert !Recorded(s', k);
  }

  // ---------- Reaping ----------

  ghost function Reaped(s: Sys): Sys
    requires AtZombie(s)
  {
    s.(d := Forget(s.d, s.pc.i), w := Buried(s))
  }

  /** A reaped booster is replaced exactly when the daemon had not heard it announce. */
  lemma ReplacedIffNotAnnounced(s: Sys)
    requires PoolInv(s) && AtZombie(s)
    ensures var k := s.w.holder[s.d.children[s.pc.i]];
            && (TypeForPid(s.d.typeToPid, s.d.children[s.pc.i]) != '\0' <==> Current(s.w, k))
            && (Current(s.w, k) ==> TypeForPid(s.d.typeToPid, s.d.children[s.pc.i]) == s.w.procs[k].kind)
  {
    var pid := s.d.children[s.pc.i];
    var k := s.w.holder[pid];
    assert Holds(s.w, k);
    var kind := TypeForPid(s.d.typeToPid, pid);
    if kind != '\0' {
      assert s.w.procs[s.w.holder[s.d.typeToPid[kind]]].kind == kind;
    }
  }

  ghost predicate OneLess(w: World, w': World, pid: Pid) {
    && w'.procs == w.procs
    && (forall k | 0 <= k < |w.procs| ::
          (Holds(w', k) <==> Holds(w, k) && w.procs[k].pid != pid) && Current(w', k) == Current(w, k))
    && (forall p | p != pid :: KnownPid(w', p) == KnownPid(w, p) && (KnownPid(w, p) ==> w'.holder[p] == w.holder[p]))
  }

  lemma PoolLosesOne(s: Sys, s': Sys, pid: Pid, kind: char)
    requires Pool(s) && OneLess(s.w, s'.w, pid)
    requires s'.d.typeToPid == s.d.typeToPid && Started(s') == Started(s)
    requires forall t | t in s.d.typeToPid && s.d.typeToPid[t] == pid :: t == kind
    requires forall k | 0 <= k < |s.w.procs| && Holds(s.w, k) && Current(s.w, k) && s.w.procs[k].kind == kind ::
      s.w.procs[k].pid == pid
    ensures PoolBut(s', kind)
    ensures kind !in s.d.typeToPid ==> Pool(s')
  {
    hide Holds, Current, KnownPid;
    assert forall k | 0 <= k < |s.w.procs| :: Recorded(s', k) == Recorded(s, k);
  }

  lemma ReapedCurrent(s: Sys)
    requires PoolInv(s) && AtZombie(s)
    ensures OneLess(s.w, Buried(s), s.d.children[s.pc.i])
  {
    BuriedFacts(s);
  }

  lemma ReapedFacts(s: Sys)
    requires PoolInv(s) && AtZombie(s)
    ensures var kind := TypeForPid(s.d.typeToPid, s.d.children[s.pc.i]);
            && PoolBut(Reaped(s), kind) && Typed(Reaped(s))
            && (kind == '\0' ==> Pool(Reaped(s)))
  {
    var kind := TypeForPid(s.d.typeToPid, s.d.children[s.pc.i]);
    ReapedCurrent(s);
    RecordedKind(s);
    CurrentOfKind(s, kind);
    hide Safe, Queue, Mapped, Pool, PoolBut, OneLess, Current, TypeForPid, Holds, Bury;
    PoolLosesOne(s, Reaped(s), s.d.children[s.pc.i], kind);
  }

  /** At most one unreaped booster of a type is current. */
  lemma CurrentOfKind(s: Sys, kind: char)
    requires PoolInv(s) && AtZombie(s)
    requires kind == TypeForPid(s.d.typeToPid, s.d.children[s.pc.i])
    ensures forall k | 0 <= k < |s.w.procs| && Holds(s.w, k) && Current(s.w, k) && s.w.procs[k].kind == kind ::
      s.w.procs[k].pid == s.d.children[s.pc.i]
  {
    RecordedKind(s);
    hide Safe, Queue, Mapped, Typed, Current, TypeForPid, Holds;
  }

  lemma ReapedMapped(s: Sys)
    requires PoolInv(s) && AtZombie(s)
    ensures Mapped(Reaped(s))
  {
    ReapedCurrent(s);
    hide Safe, Queue, Pool, Typed, Current, Holds, Bury, Answers;
  }

  /** Only the reaped pid's own type records it, and no process is of type 0. */
  lemma RecordedKind(s: Sys)
    requires PoolInv(s) && AtZombie(s)
    ensures var pid := s.d.children[s.pc.i];
            var kind := TypeForPid(s.d.typeToPid, pid);
            && (forall t | t in s.d.typeToPid && s.d.typeToPid[t] == pid :: t == kind)
            && (kind != '\0' ==> kind in s.d.typeToPid && s.d.typeToPid[kind] == pid)
            && (forall k | 0 <= k < |s.w.procs| :: s.w.procs[k].kind != '\0')
            && '\0' !in s.d.typeToPid
  {
    ReplacedIffNotAnnounced(s);
  }

  lemma ReusedPidIsClean(s: Sys, newPid: Pid)
    requires Safe(s) && DaemonEnabled(s, ScanReap(newPid))
    ensures newPid !in Reaped(s).d.invokerOf
  {
    BuriedFacts(s);
    if newPid in s.d.invokerOf {
      assert newPid in s.d.children;
    }
  }

  /** Reaping keeps the pool complete and the map of invokers exact, announced or not. */
  lemma ReapKeepsPool(s: Sys, newPid: Pid)
    requires PoolInv(s) && DaemonEnabled(s, ScanReap(newPid))
    ensures Pool(AfterReap(s, newPid)) && Mapped(AfterReap(s, newPid)) && Typed(AfterReap(s, newPid))
  {
    hide Safe, Queue, Pool, PoolBut, Mapped, Typed, TypeForPid;
    var kind := TypeForPid(s.d.typeToPid, s.d.children[s.pc.i]);
    var s1 := Reaped(s);
    ReapedFacts(s);
    ReapedMapped(s);
    ReapedRest(s);
    ReusedPidIsClean(s, newPid);
    AfterReapIs(s, newPid);
    hide Reaped, Replaced, AfterReap;
    if kind != '\0' {
      ReplacementCompletesPool(s1, kind, newPid);
      DroppedIsNotLookedAt(Replaced(s1, kind, newPid), AfterReap(s, newPid));
    } else {
      DroppedIsNotLookedAt(s1, AfterReap(s, newPid));
    }
  }

  lemma AfterReapIs(s: Sys, newPid: Pid)
    requires DaemonEnabled(s, ScanReap(newPid))
    ensures var kind := TypeForPid(s.d.typeToPid, s.d.children[s.pc.i]);
            var s' := AfterReap(s, newPid);
            && FreshPid(Reaped(s).w, newPid)
            && (kind != '\0' ==> s' == Replaced(Reaped(s), kind, newPid).(dropped := s'.dropped))
            && (kind == '\0' ==> s' == Reaped(s).(dropped := s'.dropped))
  {
    hide TypeForPid, Bury;
  }

  lemma ReapedRest(s: Sys)
    requires PoolInv(s) && AtZombie(s)
    ensures Queue(Reaped(s).w)
    ensures var kind := TypeForPid(s.d.typeToPid, s.d.children[s.pc.i]);
            kind != '\0' ==> forall t :: t in Started(Reaped(s)) <==> t in Reaped(s).d.typeToPid || t == kind
  {
    RecordedKind(s);
    hide Safe, Mapped, Typed, TypeForPid;
    assert Started(Reaped(s)) == Started(s);
  }

  lemma DroppedIsNotLookedAt(s: Sys, s': Sys)
    requires Pool(s) && Mapped(s) && Typed(s) && s' == s.(dropped := s'.dropped)
    ensures Pool(s') && Mapped(s') && Typed(s')
  {
  }

  lemma ReapKeepsInv(s: Sys, newPid: Pid)
    requires PoolInv(s) && DaemonEnabled(s, ScanReap(newPid))
    ensures PoolInv(AfterReap(s, newPid))
  {
    var kind := TypeForPid(s.d.typeToPid, s.d.children[s.pc.i]);
    StepKeepsSafe(s, Dmn(ScanReap(newPid)));
    ReapKeepsPool(s, newPid);
    assert Queue(Buried(s));
    if kind != '\0' {
      SpawnKeepsQueue(Buried(s), kind, s.d.bootMode, newPid);
    }
  }

  /** With a complete pool the daemon knows the invoker of a killed child unless its announcement is
      unread. */
  lemma KnowsUnlessUnread(s: Sys)
    requires AtZombie(s)
    requires PoolInv(s)
    ensures KnowsInvoker(s) <==> !UnknownInvoker(s)
  {
    assert Holds(s.w, s.w.holder[s.d.children[s.pc.i]]);
  }

  /** A reap leaves the signals right if and only if the dead child was not killed with a waiting
      invoker still unread in the pipe. */
  lemma ReapKeepsSettledIff(s: Sys, newPid: Pid)
    requires DaemonEnabled(s, ScanReap(newPid))
    requires PoolInv(s) && Settled(s.w)
    ensures Settled(AfterReap(s, newPid).w) <==> !UnknownInvoker(s)
  {
    KnowsUnlessUnread(s);
    hide Kernel, Queue, Pool, Mapped, Typed, Settled, KnowsInvoker, UnknownInvoker, AfterReap;
    ReapKeepsSettledExactly(s, newPid);
  }

  // ---------- Every step, every run ----------

  lemma BootForkKeepsPool(s: Sys, newPid: Pid)
    requires Queue(s.w) && Pool(s) && Mapped(s) && Typed(s) && Ready(s) && GoodTypes(s.types)
    requires DaemonEnabled(s, BootFork(newPid))
    requires newPid !in s.d.invokerOf
    ensures var s' := Step(s, Dmn(BootFork(newPid)));
            Pool(s') && Mapped(s') && Typed(s')
  {
    var kind := s.types[s.pc.next];
    var s1 := s.(pc := Booting(s.pc.next + 1));
    assert kind !in Started(s);
    assert Started(s1) == Started(s) + [kind];
    forall k | 0 <= k < |s.w.procs| && Holds(s.w, k)
      ensures Current(s1.w, k) <==> s.w.procs[k].kind != kind && Recorded(s1, k)
    {
      assert Recorded(s1, k) == Recorded(s, k);
    }
    ReplacementCompletesPool(s1, kind, newPid);
  }

  lemma BootForkKeepsInv(s: Sys, newPid: Pid)
    requires PoolInv(s) && DaemonEnabled(s, BootFork(newPid))
    ensures PoolInv(Step(s, Dmn(BootFork(newPid))))
  {
    StepKeepsSafe(s, Dmn(BootFork(newPid)));
    assert newPid !in s.d.invokerOf;
    BootForkKeepsPool(s, newPid);
    SpawnKeepsQueue(s.w, s.types[s.pc.next], s.d.bootMode, newPid);
  }

  /** The processes, their pids and the pipe look the same, except for SIGTERMs sent. */
  ghost predicate SameView(w: World, w': World) {
    && w'.holder == w.holder && w'.pipe == w.pipe && w'.kills == w.kills
    && |w'.procs| == |w.procs|
    && forall k | 0 <= k < |w.procs| :: w'.procs[k].(termSent := w.procs[k].termSent) == w.procs[k]
  }

  lemma SameViewKeepsQueue(w: World, w': World)
    requires SameView(w, w') && Queue(w)
    ensures Queue(w')
  {
  }

  lemma SameViewKeepsCurrent(w: World, w': World)
    requires SameView(w, w')
    ensures forall k | 0 <= k < |w.procs| :: Holds(w', k) == Holds(w, k) && Current(w', k) == Current(w, k)
  {
    forall k | 0 <= k < |w.procs| ensures Current(w', k) == Current(w, k) {
      assert Unread(w', k) == Unread(w, k);
    }
  }

  lemma SameViewKeepsPool(s: Sys, s': Sys)
    requires SameView(s.w, s'.w) && s'.d == s.d.(bootMode := s'.d.bootMode) && Started(s') == Started(s)
    requires Pool(s) && Mapped(s) && Typed(s)
    ensures Pool(s') && Mapped(s') && Typed(s')
  {
    SameViewKeepsCurrent(s.w, s'.w);
    hide Current, Holds;
    assert forall k | 0 <= k < |s.w.procs| :: Recorded(s', k) == Recorded(s, k);
    assert forall k | 0 <= k < |s.w.procs| :: Answers(s'.w.procs[k]) == Answers(s.w.procs[k]);
  }

  lemma NormalModeFrame(s: Sys)
    requires DaemonEnabled(s, TakeUsr1)
    ensures var s' := Step(s, Dmn(TakeUsr1));
            SameView(s.w, s'.w) && s'.d == s.d.(bootMode := s'.d.bootMode) && Started(s') == Started(s)
  {
  }

  lemma QuietFrame(s: Sys, e: DaemonEvent)
    requires DaemonEnabled(s, e) && IsQuiet(e)
    ensures var s' := DaemonStep(s, e);
            SameView(s.w, s'.w) && s'.d == s.d && Started(s') == Started(s)
  {
    assert e.BootDone? ==> s.types[..|s.types|] == s.types;
  }

  lemma NormalModeKeepsInv(s: Sys)
    requires PoolInv(s) && DaemonEnabled(s, TakeUsr1)
    ensures PoolInv(Step(s, Dmn(TakeUsr1)))
  {
    hide Safe, Queue, Pool, Mapped, Typed, SameView;
    StepKeepsSafe(s, Dmn(TakeUsr1));
    NormalModeFrame(s);
    SameViewKeepsQueue(s.w, Step(s, Dmn(TakeUsr1)).w);
    SameViewKeepsPool(s, Step(s, Dmn(TakeUsr1)));
  }

  lemma QuietStepKeepsInv(s: Sys, e: DaemonEvent)
    requires PoolInv(s) && DaemonEnabled(s, e) && IsQuiet(e)
    ensures PoolInv(DaemonStep(s, e))
  {
    hide Safe, Queue, Pool, Mapped, Typed, SameView, DaemonStep;
    StepKeepsSafe(s, Dmn(e));
    QuietFrame(s, e);
    SameViewKeepsQueue(s.w, DaemonStep(s, e).w);
    SameViewKeepsPool(s, DaemonStep(s, e));
  }

  /** Exactly the steps that obey rule R keep the pool. */
  lemma StepKeepsPoolIff(s: Sys, e: Event)
    requires PoolInv(s) && Enabled(s, e) && RuleA(e)
    ensures RuleR(s, e) ==> PoolInv(Step(s, e))
    ensures Pool(Step(s, e)) <==> RuleR(s, e)
  {
    if e.Env? {
      hide Safe, Queue, Pool, Mapped, Typed;
      StepKeepsSafe(s, e);
      LivesAreHeld(s);
      EnvKeepsQueue(s.w, e.env);
      EnvKeepsPool(s, e.env);
    } else if e.dmn.BootFork? {
      BootForkKeepsInv(s, e.dmn.newPid);
    } else if e.dmn.TakeAnnouncement? {
      if RuleR(s, e) {
        TakeKeepsInv(s, e.dmn.newPid);
      } else {
        assert s.w.pipe[0].kind in s.d.typeToPid;
        StaleAnnouncementBreaksPool(s, e.dmn.newPid);
      }
    } else if e.dmn.ScanReap? {
      ReapKeepsInv(s, e.dmn.newPid);
    } else if e.dmn.TakeUsr1? {
      NormalModeKeepsInv(s);
    } else {
      QuietStepKeepsInv(s, e.dmn);
    }
  }

  /** Exactly the steps that obey rule S keep the signals right. */
  lemma StepKeepsSettledIff(s: Sys, e: Event)
    requires Enabled(s, e) && RuleA(e)
    requires Inv(s)
    ensures Settled(Step(s, e).w) <==> RuleS(s, e)
  {
    if e.Dmn? && e.dmn.ScanReap? {
      KnowsUnlessUnread(s);
    }
    hide Kernel, Queue, Pool, Mapped, Typed, Settled, KnowsInvoker, UnknownInvoker, AtZombie, Step;
    StepKeepsSettledExactly(s, e);
  }

  // ---------- Whole runs: exactly when ----------

  ghost predicate ObeysR(s: Sys, es: seq<Event>)
    requires CanRun(s, es)
    decreases |es|
  {
    es == [] || (RuleR(s, es[0]) && ObeysR(Step(s, es[0]), es[1..]))
  }

  ghost predicate ObeysS(s: Sys, es: seq<Event>)
    requires CanRun(s, es)
    decreases |es|
  {
    es == [] || (RuleS(s, es[0]) && ObeysS(Step(s, es[0]), es[1..]))
  }

  /** The pool is complete in every state that the run passes through. */
  ghost predicate PoolThroughout(s: Sys, es: seq<Event>)
    requires CanRun(s, es)
    decreases |es|
  {
    Pool(s) && (es == [] || PoolThroughout(Step(s, es[0]), es[1..]))
  }

  lemma {:induction false} RunKeepsPoolIff(s: Sys, es: seq<Event>)
    requires PoolInv(s) && CanRun(s, es) && ObeysA(es)
    ensures PoolThroughout(s, es) <==> ObeysR(s, es)
    ensures ObeysR(s, es) ==> PoolInv(Run(s, es))
    decreases |es|
  {
    hide Pool, Safe, Queue, Mapped, Typed, RuleR, Step;
    assert Pool(s);
    if es != [] {
      assert RuleA(es[0]);
      assert ObeysA(es[1..]);
      StepKeepsPoolIff(s, es[0]);
      if RuleR(s, es[0]) {
        RunKeepsPoolIff(Step(s, es[0]), es[1..]);
      }
    }
  }

  lemma {:induction false} RunKeepsSettledIff(s: Sys, es: seq<Event>)
    requires Inv(s) && CanRun(s, es) && ObeysA(es)
    ensures PoolThroughout(s, es) && SettledThroughout(s, es) <==> ObeysR(s, es) && ObeysS(s, es)
    ensures ObeysR(s, es) && ObeysS(s, es) ==> Inv(Run(s, es))
    decreases |es|
  {
    hide PoolInv, Pool, Settled, RuleR, RuleS, Step, RuleA;
    PoolInvHasPool(s);
    if es != [] {
      assert RuleA(es[0]);
      assert ObeysA(es[1..]);
      StepKeepsPoolIff(s, es[0]);
      StepKeepsSettledIff(s, es[0]);
      if RuleR(s, es[0]) && RuleS(s, es[0]) {
        RunKeepsSettledIff(Step(s, es[0]), es[1..]);
      } else {
        assert !(Pool(Step(s, es[0])) && Settled(Step(s, es[0]).w));
      }
    }
  }

  lemma PoolInvHasPool(s: Sys)
    requires PoolInv(s)
    ensures Pool(s)
  {
  }

  lemma StartKeepsInv(types: seq<char>, bootMode: bool)
    requires GoodTypes(types)
    ensures Inv(Start(types, bootMode))
  {
    assert types[..0] == [];
  }

  /** With whole announcements the pool is complete in every state of a run if and only if no
      announcement is read after its booster has been reaped. */
  lemma PoolHoldsIff(types: seq<char>, bootMode: bool, es: seq<Event>)
    requires GoodTypes(types) && CanRun(Start(types, bootMode), es) && ObeysA(es)
    ensures PoolThroughout(Start(types, bootMode), es) <==> ObeysR(Start(types, bootMode), es)
  {
    StartKeepsInv(types, bootMode);
    RunKeepsPoolIff(Start(types, bootMode), es);
  }

  /** With whole announcements the pool is complete and the signals are right in every state of a run
      if and only if no announcement is read after its booster has been reaped, and no booster is
      reaped that was killed while the announcement of its waiting invoker was unread. */
  lemma SignalsHoldIff(types: seq<char>, bootMode: bool, es: seq<Event>)
    requires GoodTypes(types) && CanRun(Start(types, bootMode), es) && ObeysA(es)
    ensures var s := Start(types, bootMode);
            PoolThroughout(s, es) && SettledThroughout(s, es) <==> ObeysR(s, es) && ObeysS(s, es)
  {
    StartKeepsInv(types, bootMode);
    RunKeepsSettledIff(Start(types, bootMode), es);
  }

  // ---------- Rule D ----------

  /** No announcement in the pipe is that of a reaped booster. */
  ghost predicate NoneStale(w: World) {
    forall j | 0 <= j < |w.pipe| :: Holds(w, w.pipe[j].sender)
  }

  /** Which boosters a step takes off the table, and what it does to the pipe. */
  ghost predicate QueueMoves(s: Sys, e: Event, w': World)
    requires Enabled(s, e)
  {
    && (forall k | 0 <= k < |s.w.procs| ::
          Holds(w', k) <==>
            Holds(s.w, k) && !(e.Dmn? && e.dmn.ScanReap? && k == s.w.holder[s.d.children[s.pc.i]]))
    && (if e.Dmn? && e.dmn.TakeAnnouncement? then w'.pipe == s.w.pipe[1..]
        else if e.Env? && e.env.Announce? then |w'.pipe| == |s.w.pipe| + 1 && s.w.pipe <= w'.pipe
                                               && w'.pipe[|s.w.pipe|].sender == e.env.k
        else w'.pipe == s.w.pipe)
  }

  lemma EnvMoves(s: Sys, e: EnvEvent)
    requires EnvEnabled(s.w, e) && !e.Garble?
    ensures QueueMoves(s, Env(e), EnvStep(s.w, e))
  {
    EnvFrame(s.w, e);
  }

  lemma ReapMoves(s: Sys, newPid: Pid)
    requires Safe(s) && DaemonEnabled(s, ScanReap(newPid))
    ensures QueueMoves(s, Dmn(ScanReap(newPid)), AfterReap(s, newPid).w)
  {
    BuriedFacts(s);
    hide Safe, TypeForPid, Reap, Bury;
  }

  lemma ForkMoves(s: Sys, e: DaemonEvent)
    requires (e.BootFork? || e.TakeAnnouncement?) && DaemonEnabled(s, e)
    ensures QueueMoves(s, Dmn(e), DaemonStep(s, e).w)
  {
    hide ReadAnnouncement, ForkBooster;
  }

  lemma StepMoves(s: Sys, e: Event)
    requires Safe(s) && Enabled(s, e) && RuleA(e)
    ensures QueueMoves(s, e, Step(s, e).w)
  {
    hide Safe, EnvEnabled, EnvStep;
    if e.Env? {
      EnvMoves(s, e.env);
    } else if e.dmn.ScanReap? {
      ReapMoves(s, e.dmn.newPid);
      hide QueueMoves, AfterReap;
    } else if e.dmn.TakeUsr1? {
      NormalModeFrame(s);
      hide EnterNormalMode;
    } else if IsQuiet(e.dmn) {
      QuietFrame(s, e.dmn);
      hide DaemonStep;
    } else {
      ForkMoves(s, e.dmn);
    }
  }

  lemma StepKeepsNoneStale(s: Sys, e: Event)
    requires Safe(s) && NoneStale(s.w) && Enabled(s, e) && RuleA(e) && RuleD(s, e)
    ensures NoneStale(Step(s, e).w) && RuleR(s, e) && RuleS(s, e)
  {
    StepMoves(s, e);
    LivesAreHeld(s);
    assert e.Env? && e.env.Announce? ==> Holds(s.w, e.env.k);
    if e.Dmn? && e.dmn.ScanReap? {
      assert forall j | 0 <= j < |s.w.pipe| :: Unread(s.w, s.w.pipe[j].sender);
    }
    hide Safe, Step, Holds, EnvEnabled;
  }

  /** Rule D is enough for rules R and S. */
  lemma {:induction false} DisciplineSuffices(s: Sys, es: seq<Event>)
    requires PoolInv(s) && NoneStale(s.w) && CanRun(s, es) && Disciplined(s, es)
    ensures ObeysA(es) && ObeysR(s, es) && ObeysS(s, es) && NoneStale(Run(s, es).w)
    decreases |es|
  {
    hide Safe, Pool, Queue, Mapped, Typed, RuleA, RuleD, RuleR, RuleS, NoneStale, Step;
    if es != [] {
      StepKeepsNoneStale(s, es[0]);
      StepKeepsPoolIff(s, es[0]);
      DisciplineSuffices(Step(s, es[0]), es[1..]);
      assert forall i | 0 < i < |es| :: es[i] == es[1..][i - 1];
    }
  }

  /** A stale announcement can only leave the pipe by being read. */
  lemma StaleStays(s: Sys, e: Event)
    requires Safe(s) && !NoneStale(s.w) && Queue(s.w) && Enabled(s, e) && RuleA(e) && RuleR(s, e)
    ensures !NoneStale(Step(s, e).w)
  {
    StepMoves(s, e);
    var j :| 0 <= j < |s.w.pipe| && !Holds(s.w, s.w.pipe[j].sender);
    var w' := Step(s, e).w;
    hide Step, Safe;
    var i := if e.Dmn? && e.dmn.TakeAnnouncement? then j - 1 else j;
    assert w'.pipe[i] == s.w.pipe[j] && !Holds(w', w'.pipe[i].sender);
  }

  lemma {:induction false} StaleIsNeverDrained(s: Sys, es: seq<Event>)
    requires PoolInv(s) && !NoneStale(s.w) && CanRun(s, es) && ObeysA(es) && ObeysR(s, es)
    ensures Run(s, es).w.pipe != []
    decreases |es|
  {
    hide Safe, Pool, Queue, Mapped, Typed, RuleA, RuleR, Step;
    if es != [] {
      assert RuleA(es[0]);
      assert ObeysA(es[1..]);
      StaleStays(s, es[0]);
      StepKeepsPoolIff(s, es[0]);
      hide NoneStale;
      StaleIsNeverDrained(Step(s, es[0]), es[1..]);
    }
  }

  /** Reaping a booster whose announcement is unread makes that announcement stale. */
  lemma UnreadReapMakesStale(s: Sys, e: Event)
    requires Safe(s) && Enabled(s, e) && !RuleD(s, e)
    ensures !NoneStale(Step(s, e).w)
  {
    hide TypeForPid;
    var k := s.w.holder[s.d.children[s.pc.i]];
    ChildPid(s, s.pc.i);
    var w' := Step(s, e).w;
    var j :| 0 <= j < |s.w.pipe| && s.w.pipe[j].sender == k;
    assert w'.pipe[j].sender == k && !Holds(w', k);
  }

  lemma {:induction false} DrainedRunObeysD(s: Sys, es: seq<Event>)
    requires PoolInv(s) && CanRun(s, es) && ObeysA(es) && ObeysR(s, es) && Run(s, es).w.pipe == []
    ensures Disciplined(s, es)
    decreases |es|
  {
    hide Safe, Pool, Queue, Mapped, Typed, RuleA, RuleD, RuleR, NoneStale, Step;
    if es != [] {
      assert RuleA(es[0]);
      assert ObeysA(es[1..]);
      StepKeepsPoolIff(s, es[0]);
      if !RuleD(s, es[0]) {
        UnreadReapMakesStale(s, es[0]);
        StaleIsNeverDrained(Step(s, es[0]), es[1..]);
      }
      DrainedRunObeysD(Step(s, es[0]), es[1..]);
    }
  }

  /** In a run of whole announcements in which every one of them is read in the end, the pool is
      complete throughout if and only if the run keeps to rule D. */
  lemma PoolNeedsRuleD(types: seq<char>, bootMode: bool, es: seq<Event>)
    requires GoodTypes(types) && CanRun(Start(types, bootMode), es) && ObeysA(es)
    requires Run(Start(types, bootMode), es).w.pipe == []
    ensures PoolThroughout(Start(types, bootMode), es) <==> Disciplined(Start(types, bootMode), es)
  {
    var s := Start(types, bootMode);
    StartKeepsInv(types, bootMode);
    PoolHoldsIff(types, bootMode, es);
    if ObeysR(s, es) {
      DrainedRunObeysD(s, es);
    }
    if Disciplined(s, es) {
      DisciplineSuffices(s, es);
    }
  }

  lemma DisciplinedRunKeepsInv(types: seq<char>, bootMode: bool, es: seq<Event>)
    requires GoodTypes(types) && CanRun(Start(types, bootMode), es) && Disciplined(Start(types, bootMode), es)
    ensures Inv(Run(Start(types, bootMode), es)) && NoneStale(Run(Start(types, bootMode), es).w)
  {
    StartKeepsInv(types, bootMode);
    DisciplineSuffices(Start(types, bootMode), es);
    RunKeepsSettledIff(Start(types, bootMode), es);
  }

  /** In every run that keeps to rules A and D, each started type has exactly one unreaped booster
      that is idle or whose announcement is still unread, and it is the recorded one. */
  lemma PoolTheorem(types: seq<char>, bootMode: bool, es: seq<Event>)
    requires GoodTypes(types) && CanRun(Start(types, bootMode), es) && Disciplined(Start(types, bootMode), es)
    ensures var s := Run(Start(types, bootMode), es);
            && (forall t :: t in s.d.typeToPid <==> t in Started(s))
            && (forall t | t in s.d.typeToPid ::
                  var p := s.d.typeToPid[t];
                  KnownPid(s.w, p) && s.w.procs[s.w.holder[p]].kind == t && Current(s.w, s.w.holder[p]))
            && (forall k | 0 <= k < |s.w.procs| && Holds(s.w, k) && Current(s.w, k) ::
                  var p := s.w.procs[k];
                  p.kind in s.d.typeToPid && s.d.typeToPid[p.kind] == p.pid)
  {
    DisciplinedRunKeepsInv(types, bootMode, es);
    var s := Run(Start(types, bootMode), es);
    forall t | t in s.d.typeToPid ensures Current(s.w, s.w.holder[s.d.typeToPid[t]]) {
      assert Recorded(s, s.w.holder[s.d.typeToPid[t]]);
    }
  }

  /** In every run that keeps to rules A and D, the signals sent to invokers are exactly those owed:
      to a waiting invoker whose request a reaped booster took and announced, the signal that killed
      the booster, once. An invoker that does not wait is never signalled. */
  lemma SignalTheorem(types: seq<char>, bootMode: bool, es: seq<Event>)
    requires GoodTypes(types) && CanRun(Start(types, bootMode), es) && Disciplined(Start(types, bootMode), es)
    ensures var w := Run(Start(types, bootMode), es).w;
            && (forall r: KillRecord :: r in w.kills <==> Owed(w, r))
            && (forall m, n | 0 <= m < n < |w.kills| :: w.kills[m].booster != w.kills[n].booster)
            && (forall n | 0 <= n < |w.kills| ::
                  && w.kills[n].booster < |w.procs|
                  && var stage := w.procs[w.kills[n].booster].stage;
                     stage.Announced? && stage.waits && stage.peer == w.kills[n].target)
  {
    DisciplinedRunKeepsInv(types, bootMode, es);
  }

  /** A booster may be killed after it has taken a request and before it has announced it. Its invoker
      waits and is never told. Of the killed boosters that took the request of a waiting invoker,
      exactly those that announced it lead to a signal, to that invoker and with that signal. */
  lemma SignalledIffAnnounced(types: seq<char>, bootMode: bool, es: seq<Event>, k: nat, peer: Pid, signal: int)
    requires GoodTypes(types) && CanRun(Start(types, bootMode), es) && Disciplined(Start(types, bootMode), es)
    requires var w := Run(Start(types, bootMode), es).w;
             && k < |w.procs| && !Holds(w, k) && w.procs[k].status == Dead(Killed(signal)) && peer != 0
             && (w.procs[k].stage == Accepted(peer, true) || w.procs[k].stage == Announced(peer, true))
    ensures var w := Run(Start(types, bootMode), es).w;
            && ((exists n :: 0 <= n < |w.kills| && w.kills[n].booster == k) <==> w.procs[k].stage.Announced?)
            && (w.procs[k].stage.Announced? <==> KillRecord(peer, signal, k) in w.kills)
  {
    DisciplinedRunKeepsInv(types, bootMode, es);
    var w := Run(Start(types, bootMode), es).w;
    var r := KillRecord(peer, signal, k);
    assert Owed(w, r) <==> w.procs[k].stage.Announced?;
    if r in w.kills {
      var n :| 0 <= n < |w.kills| && w.kills[n] == r;
      assert w.kills[n].booster == k;
    }
    if n :| 0 <= n < |w.kills| && w.kills[n].booster == k {
      assert Owed(w, w.kills[n]);
    }
  }

  /** One death, at most one fork: a booster that dies before it announces is replaced by exactly
      one new process of its type; an application that was launched from one is not replaced. */
  lemma OneForkForEachDeath(s: Sys, newPid: Pid)
    requires DaemonEnabled(s, ScanReap(newPid)) && RuleD(s, Dmn(ScanReap(newPid)))
    requires PoolInv(s)
    ensures var p := s.w.procs[s.w.holder[s.d.children[s.pc.i]]];
            var s' := Step(s, Dmn(ScanReap(newPid)));
            if p.stage.Announced?
            then s'.w.procs == s.w.procs && s'.d.typeToPid == s.d.typeToPid
            else s'.w.procs == s.w.procs + [Proc(newPid, p.kind, s.d.bootMode, Waiting, Live, false)]
                 && s'.d.typeToPid == s.d.typeToPid[p.kind := newPid]
  {
    hide Safe, Queue, Pool, Mapped, Typed, TypeForPid, Holds, Unread;
    ReplacedIffNotAnnounced(s);
  }

  /** Leaving boot mode signals the recorded boosters. One of them may already have become an
      application: that happens exactly when an announcement of an unreaped booster is unread. */
  lemma BootExitHitsAnApplicationIff(s: Sys)
    requires PoolInv(s)
    ensures (exists k :: 0 <= k < |s.w.procs| && Holds(s.w, k) && s.w.procs[k].stage.Announced?
                         && s.w.procs[k].pid in RecordedPids(s.d))
            <==> exists j :: 0 <= j < |s.w.pipe| && Holds(s.w, s.w.pipe[j].sender)
  {
    if k :| 0 <= k < |s.w.procs| && Holds(s.w, k) && s.w.procs[k].stage.Announced?
            && s.w.procs[k].pid in RecordedPids(s.d) {
      var t :| t in s.d.typeToPid && s.d.typeToPid[t] == s.w.procs[k].pid;
      assert s.w.procs[s.w.holder[s.d.typeToPid[t]]].kind == t;
      assert Current(s.w, k);
    }
    if j :| 0 <= j < |s.w.pipe| && Holds(s.w, s.w.pipe[j].sender) {
      var k := s.w.pipe[j].sender;
      assert Unread(s.w, k) && Recorded(s, k);
      assert s.w.procs[k].pid in s.d.children;
      assert s.d.typeToPid[s.w.procs[k].kind] in RecordedPids(s.d);
    }
  }

  // ---------- When the main loop keeps rule D ----------

  /** Nothing in the pipe, or one announcement that the daemon is just about to read. */
  ghost predicate AtMostOneUnread(s: Sys) {
    s.w.pipe == [] || (|s.w.pipe| == 1 && s.pc.Handling? && s.pc.announce)
  }

  /** This is what reading the pipe before reaping is good for: a turn of the main loop that finds
      at most one announcement, and during which no booster announces, obeys rule D. */
  lemma {:induction false} PassObeysRuleD(s: Sys, es: seq<Event>)
    requires AtMostOneUnread(s) && CanRun(s, es)
    requires forall i | 0 <= i < |es| :: RuleA(es[i]) && es[i] != Dmn(Wake) && !(es[i].Env? && es[i].env.Announce?)
    ensures Disciplined(s, es)
    decreases |es|
  {
    if es != [] {
      assert RuleA(es[0]) && es[0] != Dmn(Wake);
      StillAtMostOne(s, es[0]);
      PassObeysRuleD(Step(s, es[0]), es[1..]);
    }
  }

  lemma StillAtMostOne(s: Sys, e: Event)
    requires AtMostOneUnread(s) && Enabled(s, e)
    requires RuleA(e) && e != Dmn(Wake) && !(e.Env? && e.env.Announce?)
    ensures AtMostOneUnread(Step(s, e)) && RuleD(s, e)
  {
    hide TypeForPid, RecordInvoker;
  }

  // ---------- The window before an announcement ----------

  /** A run in which nothing is announced obeys rule D. */
  lemma {:induction false} SilentRunObeysD(s: Sys, es: seq<Event>)
    requires s.w.pipe == [] && CanRun(s, es)
    requires forall i | 0 <= i < |es| :: RuleA(es[i]) && !(es[i].Env? && es[i].env.Announce?)
    ensures Disciplined(s, es)
    decreases |es|
  {
    hide Step, RuleD;
    if es != [] {
      assert RuleA(es[0]);
      SilentStep(s, es[0]);
      SilentRunObeysD(Step(s, es[0]), es[1..]);
    }
  }

  lemma SilentStep(s: Sys, e: Event)
    requires s.w.pipe == [] && Enabled(s, e) && RuleA(e) && !(e.Env? && e.env.Announce?)
    ensures Step(s, e).w.pipe == [] && RuleD(s, e)
  {
    hide TypeForPid, Holds, FreshPid;
  }

  /** Rules A and D are kept, the booster is killed while it holds the request of the waiting invoker
      500, it is reaped, and nobody is signalled. */
  lemma KilledBeforeAnnouncing() returns (es: seq<Event>)
    ensures CanRun(Start(['m'], false), es) && Disciplined(Start(['m'], false), es)
    ensures var w := Run(Start(['m'], false), es).w;
            && |w.procs| > 0 && !Holds(w, 0) && w.kills == []
            && w.procs[0].stage == Accepted(500, true) && w.procs[0].status == Dead(Killed(9))
  {
    hide Run, CanRun, TypeForPid, Disciplined;
    var s := Start(['m'], false);
    es := KilledIsScanned();
    TheTypeOf(map['m' := 1], 'm', 1);
    es := Extend(s, es, Dmn(ScanReap(2)));
    SilentRunObeysD(s, es);
  }

  lemma KilledIsScanned() returns (es: seq<Event>)
    ensures CanRun(Start(['m'], false), es)
    ensures forall i | 0 <= i < |es| :: RuleA(es[i]) && !(es[i].Env? && es[i].env.Announce?)
    ensures Run(Start(['m'], false), es) ==
      Story(DaemonState([1], map['m' := 1], map[], false),
            [Proc(1, 'm', false, Accepted(500, true), Dead(Killed(9)), false)], map[1 := 0], [], false, 0,
            Scanning(0, false, false), 0)
  {
    hide Run, CanRun, TypeForPid;
    var s := Start(['m'], false);
    EmptyRun(s);
    es := Extend(s, [], Dmn(BootFork(1)));
    es := Extend(s, es, Dmn(BootDone));
    es := Extend(s, es, Env(Accept(0, 500, true)));
    es := Extend(s, es, Env(Die(0, Killed(9))));
    es := Extend(s, es, Env(DeliverChld));
    es := Extend(s, es, Dmn(Wake));
    es := Extend(s, es, Dmn(StartScan));
    assert Run(s, es).w.holder == map[1 := 0];
  }

  // ---------- What happens without rule D ----------

  lemma TheTypeOf(m: map<char, Pid>, kind: char, pid: Pid)
    requires kind != '\0' && kind in m && m[kind] == pid && forall t | t in m && m[t] == pid :: t == kind
    ensures TypeForPid(m, pid) == kind
  {
    assert m[kind] == pid;
  }

  // One registered type, 'm', in normal mode. The states the run below passes through:

  ghost function Story(d: DaemonState, procs: seq<Proc>, holder: map<Pid, nat>, pipe: seq<Announcement>,
                       chldPending: bool, chldPipe: nat, pc: Pc, taken: nat): Sys {
    Sys(['m'], d, World(procs, holder, pipe, chldPending, chldPipe, false, 0, false, 0, []), pc, taken, 0)
  }

  ghost const FIRST := Proc(1, 'm', false, Waiting, Dead(Exited(0)), false)
  ghost const SECOND := Proc(2, 'm', false, Announced(500, true), Dead(Exited(0)), false)
  ghost const THIRD := Proc(3, 'm', false, Waiting, Live, false)
  ghost const LATE := Announcement('m', 500, 1)

  /** The first booster dies and the daemon starts to scan. */
  lemma FirstDies() returns (es: seq<Event>)
    ensures CanRun(Start(['m'], false), es) && forall i | 0 <= i < |es| :: RuleA(es[i])
    ensures Run(Start(['m'], false), es) ==
      Story(DaemonState([1], map['m' := 1], map[], false), [FIRST], map[1 := 0], [], false, 0,
            Scanning(0, false, false), 0)
  {
    hide Run, CanRun, TypeForPid;
    var s := Start(['m'], false);
    EmptyRun(s);
    es := Extend(s, [], Dmn(BootFork(1)));
    es := Extend(s, es, Dmn(BootDone));
    es := Extend(s, es, Env(Die(0, Exited(0))));
    es := Extend(s, es, Env(DeliverChld));
    es := Extend(s, es, Dmn(Wake));
    es := Extend(s, es, Dmn(StartScan));
    assert Run(s, es).w.procs == [FIRST] && Run(s, es).w.holder == map[1 := 0];
  }

  /** Its replacement takes the request of the waiting invoker 500, announces it and exits, all
      while the scan is still running. */
  lemma SecondDiesUnread() returns (es: seq<Event>)
    ensures CanRun(Start(['m'], false), es) && forall i | 0 <= i < |es| :: RuleA(es[i])
    ensures Run(Start(['m'], false), es) ==
      Story(DaemonState([2], map['m' := 2], map[], false), [FIRST, SECOND], map[2 := 1], [LATE], true, 0,
            Scanning(0, false, false), 0)
  {
    hide Run, CanRun, TypeForPid;
    var s := Start(['m'], false);
    es := FirstDies();
    TheTypeOf(map['m' := 1], 'm', 1);
    es := Extend(s, es, Dmn(ScanReap(2)));
    assert Run(s, es).w.holder == map[2 := 1] && Run(s, es).d == DaemonState([2], map['m' := 2], map[], false);
    assert Run(s, es).w.procs == [FIRST, Proc(2, 'm', false, Waiting, Live, false)];
    es := Extend(s, es, Env(Accept(1, 500, true)));
    es := Extend(s, es, Env(Announce(1)));
    es := Extend(s, es, Env(Die(1, Exited(0))));
    assert Run(s, es).w.procs == [FIRST, SECOND];
  }

  /** So it is reaped and replaced in its turn, and its announcement is read only then. */
  lemma LateReading() returns (es: seq<Event>)
    ensures CanRun(Start(['m'], false), es) && forall i | 0 <= i < |es| :: RuleA(es[i])
    ensures Run(Start(['m'], false), es) ==
      Story(DaemonState([3], map['m' := 3], map[], false), [FIRST, SECOND, THIRD], map[3 := 2], [LATE], true, 0,
            Handling(true, false, false, false), 0)
  {
    hide Run, CanRun, TypeForPid;
    var s := Start(['m'], false);
    es := SecondDiesUnread();
    TheTypeOf(map['m' := 2], 'm', 2);
    es := Extend(s, es, Dmn(ScanReap(3)));
    assert Run(s, es).w.holder == map[3 := 2] && Run(s, es).d == DaemonState([3], map['m' := 3], map[], false);
    assert Run(s, es).w.procs == [FIRST, SECOND, THIRD];
    es := Extend(s, es, Dmn(ScanLive));
    es := Extend(s, es, Dmn(ScanEnd));
    es := Extend(s, es, Dmn(PassEnd));
    es := Extend(s, es, Dmn(Wake));
  }

  /** The innocent third booster, credited with the request, is killed by signal 9. */
  lemma ThirdIsKilled() returns (es: seq<Event>)
    ensures CanRun(Start(['m'], false), es) && forall i | 0 <= i < |es| :: RuleA(es[i])
    ensures var s := Run(Start(['m'], false), es);
            && s.d == DaemonState([3, 4], map['m' := 4], map[3 := 500], false)
            && s.w.holder == map[3 := 2, 4 := 3] && |s.w.procs| == 4 && s.w.kills == []
            && s.w.procs[2] == THIRD.(status := Dead(Killed(9)))
            && s.w.pipe == [] && s.w.chldPending && s.pc == Handling(false, false, false, false)
  {
    hide Run, CanRun, TypeForPid;
    var s := Start(['m'], false);
    es := LateReading();
    es := Extend(s, es, Dmn(TakeAnnouncement(4)));
    es := Extend(s, es, Env(Die(2, Killed(9))));
  }

  /** Rule A alone is not enough: without rule D an invoker can be signalled for a booster that
      never accepted its request, or any request. */
  lemma WithoutRuleDAWrongInvokerIsSignalled() returns (es: seq<Event>)
    ensures CanRun(Start(['m'], false), es) && forall i | 0 <= i < |es| :: RuleA(es[i])
    ensures var w := Run(Start(['m'], false), es).w;
            w.kills == [KillRecord(500, 9, 2)] && |w.procs| > 2 && w.procs[2].stage == Waiting
  {
    hide Run, CanRun, TypeForPid;
    var s := Start(['m'], false);
    es := ThirdIsKilled();
    es := Extend(s, es, Env(DeliverChld));
    es := Extend(s, es, Dmn(PassEnd));
    es := Extend(s, es, Dmn(Wake));
    es := Extend(s, es, Dmn(StartScan));
    es := Extend(s, es, Dmn(ScanReap(5)));
  }
}
