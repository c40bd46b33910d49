/**
 The booster supervisor as a step system: the launcher daemon, the kernel's table of its
 children, the booster pipe, and the self-pipes that signal handlers write to.

 Every choice the scheduler, the kernel or a booster can make is carried by an event, so one
 step is a function of a state and an event, and a run is a sequence of events.
*/
module Supervisor {

  type Pid = nat // 0 stands for "no process", as in the daemon's own maps

  datatype Death = Exited(code: int) | Killed(signal: int)

  datatype Status = Live | Dead(how: Death)

  /** How far a booster has come: waiting for an invoker, holding an accepted request, or done
      announcing it to the daemon (and from then on the launched application). */
  datatype Stage =
    | Waiting
    | Accepted(peer: Pid, waits: bool)
    | Announced(peer: Pid, waits: bool)

  /** One forked child. `bootFork` is the boot-mode flag it inherited; `termSent` says that the
      daemon has sent it SIGTERM. */
  datatype Proc = Proc(pid: Pid, kind: char, bootFork: bool, stage: Stage, status: Status, termSent: bool)

  /** What a booster writes to the pipe. `sender` is not transmitted: it only names the writer. The
      invoker is 0 if none waits; in a frame that no booster wrote it may be any number. */
  datatype Announcement = Announcement(kind: char, invoker: int, sender: nat)

  /** A signal sent to an invoker, and the reaped booster on whose account it was sent. */
  datatype KillRecord = KillRecord(target: int, signal: int, booster: nat)

  // ---------- The daemon's own fields ----------

  datatype DaemonState = DaemonState(
    children: seq<Pid>,
    typeToPid: map<char, Pid>,
    invokerOf: map<Pid, int>,
    bootMode: bool)

  /** The lexically first type recorded for `pid`, or 0 when there is none. */
  function TypeForPid(m: map<char, Pid>, pid: Pid): (kind: char)
    ensures (kind in m && m[kind] == pid) || kind == '\0'
    ensures forall u | u in m && m[u] == pid :: kind <= u
    ensures kind == '\0' ==> (forall t | t in m :: m[t] != pid) || ('\0' in m && m['\0'] == pid)
  {
    var matching := set t | t in m && m[t] == pid;
    if matching == {} then
      assert forall t | t in m :: t !in matching ==> m[t] != pid;
      '\0'
    else
      LeastTypeExists(matching);
      var kind :| kind in matching && forall u | u in matching :: kind <= u;
      assert forall u | u in m && m[u] == pid :: u in matching;
      kind
  }

  lemma {:induction false} LeastTypeExists(s: set<char>)
    requires s != {}
    ensures exists t :: t in s && forall u | u in s :: t <= u
    decreases |s|
  {
    var t :| t in s;
    var rest := s - {t};
    if rest == {} {
      assert s == {t};
    } else {
      LeastTypeExists(rest);
      var least :| least in rest && forall u | u in rest :: least <= u;
      var m := if t <= least then t else least;
      forall u | u in s ensures m <= u {
        assert u == t || u in rest;
      }
    }
  }

  /** 0 for a type that was never recorded, as std::map::find is used in the daemon. */
  function PidForType(m: map<char, Pid>, kind: char): Pid {
    if kind in m then m[kind] else 0
  }

  function ForkBooster(d: DaemonState, kind: char, newPid: Pid): DaemonState {
    d.(children := d.children + [newPid], typeToPid := d.typeToPid[kind := newPid])
  }

  function RecordInvoker(d: DaemonState, kind: char, invoker: int): DaemonState {
    var booster := PidForType(d.typeToPid, kind);
    if invoker != 0 && booster != 0 then d.(invokerOf := d.invokerOf[booster := invoker]) else d
  }

  function ReadAnnouncement(d: DaemonState, kind: char, invoker: int, newPid: Pid): DaemonState {
    ForkBooster(RecordInvoker(d, kind, invoker), kind, newPid)
  }

  function EraseAt(s: seq<Pid>, i: nat): seq<Pid>
    requires i < |s|
  {
    s[..i] + s[i + 1..]
  }

  function Forget(d: DaemonState, i: nat): DaemonState
    requires i < |d.children|
  {
    d.(children := EraseAt(d.children, i), invokerOf := d.invokerOf - {d.children[i]})
  }

  /** Child `i` was found dead. A replacement is forked when the child was a type's recorded one. */
  function Reap(d: DaemonState, i: nat, newPid: Pid): DaemonState
    requires i < |d.children|
  {
    var kind := TypeForPid(d.typeToPid, d.children[i]);
    if kind != '\0' then ForkBooster(Forget(d, i), kind, newPid) else Forget(d, i)
  }

  // ---------- The kernel and the pipes ----------

  /** `procs` remembers every child ever forked; `holder` maps the pid of each unreaped one to
      its index there. A pid leaves `holder` when it is waited for and may then be used again. */
  datatype World = World(
    procs: seq<Proc>,
    holder: map<Pid, nat>,
    pipe: seq<Announcement>,
    chldPending: bool, chldPipe: nat,
    termPending: bool, termPipe: nat,
    usr1Pending: bool, usr1Pipe: nat,
    kills: seq<KillRecord>)

  const EMPTY_WORLD := World([], map[], [], false, 0, false, 0, false, 0, [])

  function Spawn(w: World, kind: char, boot: bool, newPid: Pid): World {
    w.(procs := w.procs + [Proc(newPid, kind, boot, Waiting, Live, false)],
       holder := w.holder[newPid := |w.procs|])
  }

  predicate FreshPid(w: World, newPid: Pid) {
    newPid != 0 && newPid !in w.holder
  }

  predicate Holds(w: World, k: nat) {
    k < |w.procs| && w.procs[k].pid in w.holder && w.holder[w.procs[k].pid] == k
  }

  predicate KnownPid(w: World, pid: Pid) {
    pid in w.holder && w.holder[pid] < |w.procs|
  }

  predicate ZombiePid(w: World, pid: Pid) {
    KnownPid(w, pid) && w.procs[w.holder[pid]].status.Dead?
  }

  /** kill(pid, SIGTERM) for every pid given; it reaches the process now holding the pid. */
  function SendTerm(w: World, pids: set<Pid>): World {
    w.(procs := seq(|w.procs|, k requires 0 <= k < |w.procs| =>
      if w.procs[k].pid in pids && Holds(w, k) then w.procs[k].(termSent := true) else w.procs[k]))
  }

  /** waitpid has returned `pid`: the process is gone, and if an invoker is mapped to it and it
      was killed by a signal, that invoker receives the same signal. */
  function Bury(w: World, invokerOf: map<Pid, int>, pid: Pid): World
    requires ZombiePid(w, pid)
  {
    var k := w.holder[pid];
    var how := w.procs[k].status.how;
    w.(holder := w.holder - {pid},
       kills := if pid in invokerOf && how.Killed?
                then w.kills + [KillRecord(invokerOf[pid], how.signal, k)] else w.kills)
  }

  // ---------- Steps of the environment ----------

  /** An announcement is three writes. When they do not arrive together, because boosters write at
      the same time or one dies half way, the frames in which the daemon reads the pipe no longer
      match what was written. After Garble the pipe reads as anything at all, except that bytes in
      it do not vanish. */
  datatype EnvEvent =
    | Accept(k: nat, peer: Pid, waits: bool) // booster k took an invoker's request
    | Announce(k: nat)                       // booster k wrote type, invoker and delay to the pipe
    | Die(k: nat, how: Death)
    | Garble(pipe: seq<Announcement>)        // see below
    | RaiseTerm | RaiseUsr1
    | DeliverChld | DeliverTerm | DeliverUsr1 // the handler runs and writes one byte

  predicate EnvEnabled(w: World, e: EnvEvent) {
    match e
    case Accept(k, _, _) => k < |w.procs| && w.procs[k].status.Live? && w.procs[k].stage.Waiting?
    case Announce(k) => k < |w.procs| && w.procs[k].status.Live? && w.procs[k].stage.Accepted?
    case Die(k, _) => k < |w.procs| && w.procs[k].status.Live?
    case Garble(pipe) => w.pipe != [] ==> pipe != []
    case RaiseTerm => true
    case RaiseUsr1 => true
    case DeliverChld => w.chldPending
    case DeliverTerm => w.termPending
    case DeliverUsr1 => w.usr1Pending
  }

  /** The invoker pid a booster reports: 0 unless the invoker waits for the exit status. */
  function ReportedInvoker(stage: Stage): Pid
    requires !stage.Waiting?
  {
    if stage.waits then stage.peer else 0
  }

  function EnvStep(w: World, e: EnvEvent): World
    requires EnvEnabled(w, e)
  {
    match e
    case Accept(k, peer, waits) =>
      w.(procs := w.procs[k := w.procs[k].(stage := Accepted(peer, waits))])
    case Announce(k) =>
      var p := w.procs[k];
      w.(procs := w.procs[k := p.(stage := Announced(p.stage.peer, p.stage.waits))],
         pipe := w.pipe + [Announcement(p.kind, ReportedInvoker(p.stage), k)])
    case Die(k, how) =>
      w.(procs := w.procs[k := w.procs[k].(status := Dead(how))], chldPending := true)
    case Garble(pipe) => w.(pipe := pipe)
    case RaiseTerm => w.(termPending := true)
    case RaiseUsr1 => w.(usr1Pending := true)
    case DeliverChld => w.(chldPending := false, chldPipe := w.chldPipe + 1)
    case DeliverTerm => w.(termPending := false, termPipe := w.termPipe + 1)
    case DeliverUsr1 => w.(usr1Pending := false, usr1Pipe := w.usr1Pipe + 1)
  }

  // ---------- Steps of the daemon ----------

  /** Where the daemon is: forking the first boosters, in select, working through the pipes that
      select reported, inside the reap scan, or gone after SIGTERM or a failed read. */
  datatype Pc =
    | Booting(next: nat)
    | Selecting
    | Handling(announce: bool, chld: bool, term: bool, usr1: bool)
    | Scanning(i: nat, term: bool, usr1: bool)
    | Stopped

  /** `taken` counts announcements read, `dropped` reaped children that were no type's recorded
      booster. Neither influences a step. */
  datatype Sys = Sys(types: seq<char>, d: DaemonState, w: World, pc: Pc, taken: nat, dropped: nat)

  datatype DaemonEvent =
    | BootFork(newPid: Pid)
    | BootDone
    | Wake
    | TakeAnnouncement(newPid: Pid)
    | ReadFails // a read inside an announcement came up short: the daemon exits
    | StartScan
    | ScanLive
    | ScanReap(newPid: Pid)
    | ScanEnd
    | TakeTerm
    | TakeUsr1
    | PassEnd

  datatype Event = Env(env: EnvEvent) | Dmn(dmn: DaemonEvent)

  predicate AtZombie(s: Sys) {
    s.pc.Scanning? && s.pc.i < |s.d.children| && ZombiePid(s.w, s.d.children[s.pc.i])
  }

  /** The kernel after the dead child under the scan has been waited for. */
  function Buried(s: Sys): World
    requires AtZombie(s)
  {
    Bury(s.w, s.d.invokerOf, s.d.children[s.pc.i])
  }

  predicate DaemonEnabled(s: Sys, e: DaemonEvent) {
    match e
    case BootFork(newPid) => s.pc.Booting? && s.pc.next < |s.types| && FreshPid(s.w, newPid)
    case BootDone => s.pc == Booting(|s.types|)
    case Wake =>
      s.pc.Selecting? && (s.w.pipe != [] || s.w.chldPipe > 0 || s.w.termPipe > 0 || s.w.usr1Pipe > 0)
    case TakeAnnouncement(newPid) =>
      s.pc.Handling? && s.pc.announce && s.w.pipe != [] && FreshPid(s.w, newPid)
    case ReadFails => s.pc.Handling? && s.pc.announce && s.w.pipe != []
    case StartScan => s.pc.Handling? && !s.pc.announce && s.pc.chld && s.w.chldPipe > 0
    case ScanLive =>
      s.pc.Scanning? && s.pc.i < |s.d.children| && !ZombiePid(s.w, s.d.children[s.pc.i])
    case ScanReap(newPid) => AtZombie(s) && FreshPid(Buried(s), newPid)
    case ScanEnd => s.pc.Scanning? && s.pc.i == |s.d.children|
    case TakeTerm =>
      s.pc.Handling? && !s.pc.announce && !s.pc.chld && s.pc.term && s.w.termPipe > 0
    case TakeUsr1 =>
      s.pc.Handling? && !s.pc.announce && !s.pc.chld && !s.pc.term && s.pc.usr1 && s.w.usr1Pipe > 0
    case PassEnd => s.pc == Handling(false, false, false, false)
  }

  function AfterRead(s: Sys, newPid: Pid): Sys
    requires s.w.pipe != [] && s.pc.Handling?
  {
    var m := s.w.pipe[0];
    s.(d := ReadAnnouncement(s.d, m.kind, m.invoker, newPid),
       w := Spawn(s.w.(pipe := s.w.pipe[1..]), m.kind, s.d.bootMode, newPid),
       pc := s.pc.(announce := false),
       taken := s.taken + 1)
  }

  function AfterReap(s: Sys, newPid: Pid): Sys
    requires AtZombie(s)
  {
    var kind := TypeForPid(s.d.typeToPid, s.d.children[s.pc.i]);
    s.(d := Reap(s.d, s.pc.i, newPid),
       w := if kind != '\0' then Spawn(Buried(s), kind, s.d.bootMode, newPid) else Buried(s),
       dropped := if kind != '\0' then s.dropped else s.dropped + 1)
  }

  function RecordedPids(d: DaemonState): set<Pid> {
    set t | t in d.typeToPid && d.typeToPid[t] != 0 :: d.typeToPid[t]
  }

  /** Leaving boot mode sends SIGTERM to every recorded booster, once. */
  function EnterNormalMode(s: Sys): Sys {
    if s.d.bootMode then
      s.(d := s.d.(bootMode := false), w := SendTerm(s.w, RecordedPids(s.d)))
    else s
  }

  function DaemonStep(s: Sys, e: DaemonEvent): Sys
    requires DaemonEnabled(s, e)
  {
    match e
    case BootFork(newPid) =>
      var kind := s.types[s.pc.next];
      s.(d := ForkBooster(s.d, kind, newPid),
         w := Spawn(s.w, kind, s.d.bootMode, newPid),
         pc := Booting(s.pc.next + 1))
    case BootDone => s.(pc := Selecting)
    case Wake =>
      s.(pc := Handling(s.w.pipe != [], s.w.chldPipe > 0, s.w.termPipe > 0, s.w.usr1Pipe > 0))
    case TakeAnnouncement(newPid) => AfterRead(s, newPid)
    case ReadFails => s.(pc := Stopped)
    case StartScan =>
      s.(w := s.w.(chldPipe := s.w.chldPipe - 1), pc := Scanning(0, s.pc.term, s.pc.usr1))
    case ScanLive => s.(pc := s.pc.(i := s.pc.i + 1))
    case ScanReap(newPid) => AfterReap(s, newPid)
    case ScanEnd => s.(pc := Handling(false, false, s.pc.term, s.pc.usr1))
    case TakeTerm => s.(w := s.w.(termPipe := s.w.termPipe - 1), pc := Stopped)
    case TakeUsr1 =>
      EnterNormalMode(s.(w := s.w.(usr1Pipe := s.w.usr1Pipe - 1), pc := Handling(false, false, false, false)))
    case PassEnd => s.(pc := Selecting)
  }

  // ---------- Runs ----------

  predicate Enabled(s: Sys, e: Event) {
    match e
    case Env(env) => EnvEnabled(s.w, env)
    case Dmn(dmn) => DaemonEnabled(s, dmn)
  }

  function Step(s: Sys, e: Event): Sys
    requires Enabled(s, e)
  {
    match e
    case Env(env) => s.(w := EnvStep(s.w, env))
    case Dmn(dmn) => DaemonStep(s, dmn)
  }

  predicate CanRun(s: Sys, es: seq<Event>)
    decreases |es|
  {
    es == [] || (Enabled(s, es[0]) && CanRun(Step(s, es[0]), es[1..]))
  }

  function Run(s: Sys, es: seq<Event>): Sys
    requires CanRun(s, es)
    decreases |es|
  {
    if es == [] then s else Run(Step(s, es[0]), es[1..])
  }

  lemma {:induction false} RunsCompose(s: Sys, es: seq<Event>, fs: seq<Event>)
    requires CanRun(s, es) && CanRun(Run(s, es), fs)
    ensures CanRun(s, es + fs) && Run(s, es + fs) == Run(Run(s, es), fs)
    decreases |es|
  {
    if es == [] {
      assert [] + fs == fs;
    } else {
      assert (es + fs)[1..] == es[1..] + fs;
      RunsCompose(Step(s, es[0]), es[1..], fs);
    }
  }

  lemma EmptyRun(s: Sys)
    ensures CanRun(s, []) && Run(s, []) == s
  {
  }

  lemma Extend(s: Sys, es: seq<Event>, e: Event) returns (longer: seq<Event>)
    requires CanRun(s, es) && Enabled(Run(s, es), e)
    ensures CanRun(s, longer) && Run(s, longer) == Step(Run(s, es), e)
    ensures longer == es + [e]
  {
    longer := es + [e];
    RunsCompose(s, es, [e]);
  }

  /** The booster plugins have pairwise different types, none of them 0. */
  predicate GoodTypes(types: seq<char>) {
    (forall i | 0 <= i < |types| :: types[i] != '\0') &&
    (forall i, j | 0 <= i < j < |types| :: types[i] != types[j])
  }

  /** Nothing has been forked yet. */
  function Start(types: seq<char>, bootMode: bool): Sys {
    Sys(types, DaemonState([], map[], map[], bootMode), EMPTY_WORLD, Booting(0), 0, 0)
  }

  /** The types whose first booster has been forked. */
  function Started(s: Sys): seq<char> {
    if s.pc.Booting? && s.pc.next <= |s.types| then s.types[..s.pc.next] else s.types
  }
}
