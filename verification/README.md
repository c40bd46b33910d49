# Applauncherd: a verified model

Applauncherd starts applications fast. A *launcher daemon* keeps one pre-forked *booster* process
for each type of application. An *invoker* program connects to the booster of the right type and
sends it a launch request over a socket. The booster becomes the application, tells the daemon
over a pipe that it did, and the daemon forks the next booster. An invoker that waits gets the
application's exit status from the booster, or, when the booster is killed after it has told the
daemon, the same signal from the daemon.

The project models the three parts where this is difficult, and proves what they promise:

- **The supervisor** (`Supervisor`, `SupervisorTable`, `SupervisorProgress`, `SupervisorSafety`,
  `SupervisorSignals`, `SupervisorPool`, `LauncherDaemon`). The daemon, the kernel's table of its children, the booster pipe and the signal self-pipes form a
  step system. Every choice of the scheduler, the kernel or a booster is carried by an event, so a
  run is a sequence of events and a theorem about all runs is a theorem about all such sequences.
  The reap scan is cut into single steps, between which anything may happen. The `Daemon` class
  updates its fields in place, as the original does; each method is proved to be a run of the step
  system whatever other processes do between its system calls.
- **The invoker protocol** (`Protocol`, `Request`, `RequestProofs`, `Session`,
  `BoosterConnection`, `InvokerProgram`, `BoosterProcess`). Functions on byte streams say what is
  printed and what parsing means; the classes read, write and fill fields step by step and are
  proved against those functions. `Session` is the exchange of both sides, from the first byte of the
  request to the exit status.
- **Smaller parts**: overwriting the argument block in place (`ArgBlock`), the plugin registry and
  the socket table (`Sockets`), and creating a path (`MkPath`).

## What the supervisor keeps, and when

*In every run.* `SupervisorTable`, `SupervisorProgress` and `SupervisorSignals` assume nothing about
when announcements are read, nor that they arrive whole. An announcement is three writes; when
boosters write at the same time or one dies half way, the daemon reads the pipe in frames that were
never written. The event `Garble` covers this: the pipe comes to read as anything at all, as long as
bytes in it do not vanish. `ReadFails` is the daemon's exit when a read inside an announcement comes
up short, and a daemon that blocks inside one simply takes no further step. Even so the children are
the kernel's unreaped children, no dead child is lost or waits longer than a stated number of steps,
children are conserved, and boot mode is left. The signals to invokers are right throughout a run if
and only if the daemon knows the invoker of every killed child that it reaps (`SignalsAreRightIff`).

*When the collections agree.* 0 doubles as "no such booster" when the daemon looks up a pid, so a
child recorded for type 0 is not replaced. The vector of children and the two maps agree throughout a
run if and only if no such child is reaped (rule Z, `RecordsHoldIff`); nothing is asked of types or
bytes. A frame that reads as type 0 can lead to one, as `ZeroTypeByteExample` shows in a run from
start-up. If no plugin is of type 0 and no type byte reads as 0 there never is one (`SafetyTheorem`).

*With whole announcements* (rule A), and plugins of different types other than 0, the daemon can never
be stuck outside select (`NeverBlocked`), and `SupervisorPool` says exactly when the pool of boosters
is complete. Rule R: no announcement is read after its booster has been reaped. Rule S: no booster is
reaped that was killed while the announcement of its waiting invoker was unread. The pool is complete
throughout a run if and only if the run keeps R (`PoolHoldsIff`); pool and signals are both right
throughout if and only if it keeps R and S (`SignalsHoldIff`).

The main loop aims at a simpler rule D, that a booster's announcement is read before its own death
is reaped, by reading the booster pipe first. But it reads one announcement a turn, and a booster can
announce and die during a scan, so D is a rule about schedules. D implies R and S
(`DisciplineSuffices`), and in every run in which all announcements are read in the end it is also
necessary (`PoolNeedsRuleD`). `PassObeysRuleD` gives turns of the loop that keep it, and
`WithoutRuleDAWrongInvokerIsSignalled` is a complete run, from start-up, in which a late announcement
is credited to the wrong booster and its invoker is signalled for a process that never took its
request.

## What is assumed of the surroundings

- `fork` succeeds and returns a nonzero pid that no unreaped child holds; a pid that has been waited
  for may return at once. `waitpid` on a child returns 0 or that pid. Waiting for a dead child, the
  signal to its invoker and the fork of its replacement make one step of the step system; other
  processes act before and after it.
- A signal that is already pending is not raised a second time; delivering it writes one byte to
  the self-pipe. The daemon meets bytes in its pipes only through events.
- A read comes up short only at the end of the stream. The receiver then sees the word 0. Each of
  the invoker's five word variables is left with whatever it held; these words are parameters. Where
  an outcome is stated, the three that are compared differ from the word being waited for.
- Words travel in little-endian order. `read` takes no notice of descriptors attached to a byte.
- Strings given to an invoker have no NUL and a length word below `MSG_IO` (0x10fd0000), and there
  are fewer than 2^31 of them, as an `int` count needs.
- The pid and credentials of a peer, `getpriority`, the single-instance plugin's answers, the exit
  status of `main` and the first contents of the uninitialised `m_uid` and `m_gid` are parameters.

## Where the code and its intent part

- The version test (src/launcherlib/connection.cpp:252) compares a logical negation with 0x300, so
  no version is ever refused; a missing magic is not refused either. `Request.ReceiveMagic` does the
  same, and no result says that a wrong version is refused.
- An environment block with no entries makes its handler report failure, and the action loop ignores
  that. The stream is still in step, so the request is accepted with an empty environment.
- `--wait-term` does not take `--no-wait` back.
- A request with an empty file name is acknowledged, though there is nothing to launch; an invoker
  that waits then loses the connection.
- When another instance is already running, the booster has acknowledged the request before it asks
  the single-instance plugin, and it exits without a status; a waiting invoker then loses the
  connection too. `Session.LaunchTheorem` says exactly when the status arrives.
- The booster acknowledges a request (src/launcherlib/connection.cpp:506-512) before it tells the daemon
  (src/launcherlib/booster.cpp:148-150). One that is killed in between leaves its invoker waiting without
  a signal, even when rules A and D are kept: `SupervisorPool.KilledBeforeAnnouncing` is such a run, and
  `SignalledIffAnnounced` says that this is the only case.
- An invoker has no handler for SIGPIPE while it sends. One whose request is refused before it was sent
  in full may be killed by it instead of exiting with 1; the same goes for a booster killed meanwhile.
- A torn frame may read as any invoker, a negative number included, and `kill` takes that for a process
  group.

## Model

| member | source | states |
|---|---|---|
| SupervisorSafety.SafetyTheorem | src/launcherlib/daemon.cpp:174-253 | if no plugin is of type 0 and no type byte reads as 0, then no child is ever recorded for type 0, and every state keeps the table, the agreement of the collections and nonzero types |
| SupervisorSafety.RecordsTheorem | src/launcherlib/daemon.cpp:486-565 | in every state reached without reaping a child recorded for type 0, children have no duplicates; recorded pids are nonzero, pairwise distinct, children, and mapped to no invoker; only children are mapped to invokers |
| SupervisorSafety.RecordsHoldIff | src/launcherlib/daemon.cpp:486-565 | over every run from start-up, whatever types and bytes, the collections agree in every state if and only if no child recorded for type 0 is reaped |
| SupervisorSafety.InvokersAreNeverOverwritten | src/launcherlib/daemon.cpp:277-306 | whatever an announcement says, reading it overwrites no entry of the booster-to-invoker map, and the pid forked for it carries no invoker of an earlier holder |
| SupervisorTable.NoLostZombieTheorem | src/launcherlib/daemon.cpp:229-234 | in every reachable state a dead child has SIGCHLD pending, or a byte waits in the self-pipe, or the scan has not passed it yet, with any deaths, coalesced signals and torn announcements in between |
| SupervisorTable.SoundnessTheorem | src/launcherlib/daemon.cpp:174-253 | every state of every run from start-up, without any condition on types, bytes or schedule, keeps the table of children, the watch for dead ones, the count, the boot-mode promise and the readiness of what select reported |
| SupervisorTable.ChildrenTheorem | src/launcherlib/daemon.cpp:475-498 | in every reachable state the vector of children holds exactly the kernel's unreaped children, each once, and every live process is in it |
| SupervisorTable.SleepingMeansAllReaped | src/launcherlib/main.cpp:37-40 | outside a scan and with no SIGCHLD on its way, every unreaped child is alive |
| SupervisorTable.ConservationTheorem | src/launcherlib/daemon.cpp:475-483 | in every reachable state the number of children is the types started, plus announcements read, less reaped children that were no type's recorded booster |
| SupervisorTable.BootModeTheorem | src/launcherlib/daemon.cpp:719-743 | in every reachable state out of boot mode, each recorded booster that is not reaped was forked in normal mode or has been sent SIGTERM |
| SupervisorTable.Usr1LeavesBootMode | src/launcherlib/daemon.cpp:719-743 | taking SIGUSR1 ends boot mode and, if it was on, sends SIGTERM to exactly the processes that hold a nonzero pid recorded for a type; nothing else changes |
| SupervisorTable.BootModeIff | src/launcherlib/daemon.cpp:719-730 | at the end of any run boot mode is on if and only if it was on at first and no SIGUSR1 was taken |
| SupervisorTable.Usr1Example | src/launcherlib/daemon.cpp:244-249 | a run in which SIGUSR1 is raised, delivered and taken, and the boot-mode booster is sent SIGTERM |
| SupervisorTable.BootModeIsLeft | src/launcherlib/daemon.cpp:732-743 | once every booster that was sent SIGTERM has been reaped, each recorded booster that is not reaped is a normal-mode one |
| SupervisorTable.NormalModeForGood | src/launcherlib/daemon.cpp:719-730 | after boot mode was left it never returns, and everything forked since is a normal-mode booster |
| SupervisorTable.ForksInheritMode | src/launcherlib/daemon.cpp:397-483 | a step forks at most one process, and that is an idle booster with the mode the daemon is in |
| SupervisorTable.TermIsFinal | src/launcherlib/daemon.cpp:237-249 | once select has reported SIGTERM the daemon never gets back to select and does not leave boot mode any more, even if SIGUSR1 was reported with it; after taking SIGTERM it is stopped for good |
| SupervisorProgress.NeverBlocked | src/launcherlib/daemon.cpp:211-251 | in every run of whole announcements the daemon has a next step whenever it is outside select: no read that select announced can block or come up short |
| SupervisorProgress.BacklogConserved | src/launcherlib/daemon.cpp:211-251 | what waits in the four pipes is what waited, plus what arrived, less what the daemon took, over every run of whole announcements |
| SupervisorProgress.ScanTerminates | src/launcherlib/daemon.cpp:489-537 | with exits interleaved anywhere, a scan takes at most one step for each child at entry, each dead child at entry and each exit meanwhile, and the vector never outgrows its length at entry |
| SupervisorProgress.PromptReapingTheorem | src/launcherlib/daemon.cpp:211-251 | take any reachable state with no SIGCHLD still to be delivered: after 2 * (children + dead children + types) + 8 steps of the daemon, and two more for each further death, each child that was dead has been reaped, whatever else happens meanwhile |
| SupervisorProgress.StepTowardsReap | src/launcherlib/daemon.cpp:486-538 | every step of anyone reaps the noticed child or leaves it noticed and, if it is the daemon's, nearer |
| SupervisorProgress.CanGoOnReaping | src/launcherlib/daemon.cpp:211-251 | as long as a noticed child is not reaped and the daemon has not stopped, the daemon has a next step, even from select |
| SupervisorSafety.StepKeepsSafe | src/launcherlib/daemon.cpp:174-253 | each single step of the daemon or of another process keeps all that, as long as no type byte reads as 0 |
| SupervisorSafety.StepKeepsRecordsIff | src/launcherlib/daemon.cpp:498-531 | of all steps exactly those keep the collections in agreement that do not reap a child recorded for type 0 |
| SupervisorTable.ReapKeepsWatched | src/launcherlib/daemon.cpp:489-498 | erasing from and appending to the vector in the middle of a scan hides no dead child |
| SupervisorSafety.ReapKeepsRecordsIff | src/launcherlib/daemon.cpp:526-531 | removing a dead child, its invoker entry and its record, and forking a replacement under a possibly recycled pid, leaves the three collections in agreement if and only if the child is not the one recorded for type 0 |
| SupervisorSafety.LookupsAreInverse | src/launcherlib/daemon.cpp:545-565 | pid of a type and type of a pid undo each other for every recorded booster; a type never recorded has pid 0 |
| SupervisorSafety.ZeroTypeByteExample | src/launcherlib/daemon.cpp:545-559 | a run from start-up in which a frame that reads as type 0 leaves the pid of a reaped process recorded |
| SupervisorPool.PoolTheorem | src/launcherlib/daemon.cpp:397-484 | under rules A and D each started type always has exactly one unreaped booster that is idle or whose announcement is unread, and it is the recorded one |
| SupervisorPool.SignalTheorem | src/launcherlib/daemon.cpp:500-524 | under rules A and D the signals sent to invokers are exactly those owed: the invoker waits, a reaped booster took its request and announced it, the signal is the one that killed that booster, once; none else and none missing |
| SupervisorPool.SignalledIffAnnounced | src/launcherlib/daemon.cpp:500-524 | under rules A and D, of the killed and reaped boosters that took the request of a waiting invoker exactly those that announced it lead to a signal, to that invoker and with that signal |
| SupervisorPool.KilledBeforeAnnouncing | src/launcherlib/booster.cpp:116-150 | a run from start-up that keeps rules A and D and ends with a booster reaped that was killed while it held the request of a waiting invoker, and nobody signalled |
| SupervisorSignals.SignalsAreRightIff | src/launcherlib/daemon.cpp:500-524 | over every run from start-up, torn announcements included, the signals are right in every state if and only if the daemon knows the announced invoker of every killed child that it reaps |
| SupervisorSignals.ReapKeepsSettledExactly | src/launcherlib/daemon.cpp:500-524 | a reap leaves the signals right if and only if what the daemon has noted for a killed child is the waiting invoker that the child announced, or nothing if there is none |
| SupervisorSignals.StepKeepsSettledExactly | src/launcherlib/daemon.cpp:211-251 | of all steps, torn announcements included, exactly those keep the signals right that do not reap a killed child whose invoker the daemon does not know |
| SupervisorPool.PoolHoldsIff | src/launcherlib/daemon.cpp:255-312 | over every run of whole announcements the pool is complete in every state if and only if no announcement is read after its booster was reaped |
| SupervisorPool.SignalsHoldIff | src/launcherlib/daemon.cpp:500-524 | over every such run pool and signals are right in every state if and only if, besides, no killed booster is reaped whose waiting invoker is still unread in the pipe |
| SupervisorPool.PoolNeedsRuleD | src/launcherlib/daemon.cpp:222-234 | over every such run in which all announcements are read in the end, the pool is complete in every state if and only if rule D is kept |
| SupervisorPool.DisciplineSuffices | src/launcherlib/daemon.cpp:222-234 | rule D implies the two exact rules, and no announcement in the pipe is ever that of a reaped booster |
| SupervisorPool.StepKeepsPoolIff | src/launcherlib/daemon.cpp:211-251 | of all steps exactly those keep the pool that do not read a reaped booster's announcement, and these keep the whole invariant |
| SupervisorPool.StaleAnnouncementBreaksPool | src/launcherlib/daemon.cpp:277-306 | reading the announcement of a reaped booster always replaces an idle or unread booster that should have stayed recorded |
| SupervisorPool.ReapKeepsPool | src/launcherlib/daemon.cpp:486-538 | a reap keeps pool and invoker map right whether or not the announcement was read |
| SupervisorPool.ReapKeepsSettledIff | src/launcherlib/daemon.cpp:500-524 | a reap leaves the signals right if and only if the child was not killed with its waiting invoker still unread |
| SupervisorPool.AnnouncerIsRecorded | src/launcherlib/daemon.cpp:277-285 | under the invariant the recorded booster of the type just read is the announcer itself, if that is not reaped |
| SupervisorPool.ReplacedIffNotAnnounced | src/launcherlib/daemon.cpp:526-531 | a reaped booster is replaced if and only if the daemon had not read an announcement of it, and by one of its own type |
| SupervisorPool.OneForkForEachDeath | src/launcherlib/booster.cpp:116-156 | a booster that dies before announcing (refused request, second instance, crash) is replaced by exactly one fork; a launched application is not replaced |
| SupervisorPool.PassObeysRuleD | src/launcherlib/daemon.cpp:222-234 | a turn of the main loop that finds at most one announcement, with none made during it, obeys rule D because the pipe is read before reaping |
| SupervisorPool.WithoutRuleDAWrongInvokerIsSignalled | src/launcherlib/daemon.cpp:222-234 | a run from start-up, breaking only rule D, that ends with an invoker signalled for a booster that never took a request |
| SupervisorPool.BootExitHitsAnApplicationIff | src/launcherlib/daemon.cpp:732-743 | leaving boot mode signals a process that is already an application if and only if the announcement of an unreaped booster is unread |
| SupervisorPool.ReusedPidIsClean | src/launcherlib/daemon.cpp:522-524 | the pid of a replacement, even one recycled from the child just reaped, has no invoker |
| SupervisorPool.EnvUnread | src/launcherlib/booster.cpp:173-193 | of all that other processes do, only a booster's own announcement makes it unread |
| LauncherDaemon.Daemon.Serve | src/launcherlib/daemon.cpp:174-253 | start-up and any number of turns of the main loop are a run of the step system, whatever other processes do between system calls, torn announcements included; the fields keep every invariant of such runs: the table always, the agreement of the collections under rule Z, and, if announcements arrive whole, the pool under rule R and the signals under D; unless it stops, the loop takes as many things out of the pipes as it makes turns, or has come to a turn with all pipes empty |
| LauncherDaemon.Daemon.Pass | src/launcherlib/daemon.cpp:188-252 | one turn of the loop is a run that ends in select again, or stopped; it takes something out of a pipe unless all four are empty or an announcement cannot be read |
| LauncherDaemon.Daemon.HandleReady | src/launcherlib/daemon.cpp:222-249 | the pipes are worked through in the order boosters, SIGCHLD, SIGTERM, SIGUSR1, and something is taken out of one that was reported; the daemon stops on SIGTERM or, if announcements may be torn, on a failed read, and on nothing else |
| LauncherDaemon.Daemon.ReapZombies | src/launcherlib/daemon.cpp:486-538 | the loop ends for any finite script of interfering processes and is a run of scan steps that visits the whole vector |
| LauncherDaemon.Daemon.LookAtChild | src/launcherlib/daemon.cpp:490-537 | each turn of the reap loop lowers children left plus dead children plus exits to come |
| LauncherDaemon.Daemon.ReapChild | src/launcherlib/daemon.cpp:495-531 | erasing, signalling, forgetting and re-forking in place is one reap step |
| LauncherDaemon.Daemon.ForgetChild | src/launcherlib/daemon.cpp:497-524 | a mapped invoker is signalled only if a signal killed the child, with that signal; child and entry are gone, everything else stays |
| LauncherDaemon.Daemon.ReadFromBoosterPipe | src/launcherlib/daemon.cpp:255-312 | reading one announcement is one announcement step: note the invoker for the recorded booster, then fork; or pid or delay come up short, which whole announcements never do, and the daemon exits |
| LauncherDaemon.Daemon.NoteInvoker | src/launcherlib/daemon.cpp:277-285 | a nonzero invoker is mapped to by the booster recorded for the type, if there is one; nothing else changes |
| LauncherDaemon.Daemon.ForkOne | src/launcherlib/daemon.cpp:397-484 | a fork adds the fresh pid at the end of the children and records it for its type |
| LauncherDaemon.Daemon.ForkBoosters | src/launcherlib/daemon.cpp:160-172 | start-up forks one booster for each registered type while those already forked go on living |
| LauncherDaemon.Daemon.BoosterTypeForPid | src/launcherlib/daemon.cpp:545-559 | the walk through the map finds the least type recorded for the pid, or 0 |
| LauncherDaemon.Daemon.KillBoosters | src/launcherlib/daemon.cpp:732-743 | SIGTERM goes to exactly the nonzero recorded pids, and the map stays |
| LauncherDaemon.Daemon.LeaveBootMode | src/launcherlib/daemon.cpp:719-730 | boot mode is off afterwards; the recorded boosters are signalled the first time only, and nobody else |
| LauncherDaemon.Daemon.Select | src/launcherlib/daemon.cpp:188-219 | the daemon wakes exactly when some pipe can be read, and knows which |
| LauncherDaemon.Daemon.HandlePipe | src/launcherlib/daemon.cpp:222-226 | reads one announcement if select reported the booster pipe, or stops |
| LauncherDaemon.Daemon.HandleChld | src/launcherlib/daemon.cpp:229-234 | takes one byte before the scan, so a death during the scan leaves a trace |
| LauncherDaemon.Daemon.HandleTerm | src/launcherlib/daemon.cpp:237-242 | SIGTERM stops the daemon |
| LauncherDaemon.Daemon.HandleUsr1 | src/launcherlib/daemon.cpp:244-249 | one byte is taken and boot mode is off afterwards, if SIGUSR1 was reported; otherwise the mode stays |
| RequestProofs.DecodeTheorem | src/launcherlib/connection.cpp:521-557 | a printed request within the limits and with a nonempty name is decoded to exactly the application and environment asked for and acknowledged; any other printed request is refused, before its end, with nothing sent |
| RequestProofs.DecodedInFull | src/invoker/invoker.c:272-396 | the same field by field and in numbers: accepted exactly with a nonempty name, at most 1023 arguments and entries and 4095 bytes a string; then options, name, file, priority, delay, argc, argv, descriptors, uid and gid are those sent, and 0x600d0000 goes back, with 0x1d1d0000 and the pid if the lowest option bit is set |
| RequestProofs.DecodedEnvironment | src/launcherlib/connection.cpp:364-411 | an accepted request leaves exactly the environment it sent, byte for byte |
| RequestProofs.VerdictNeedsNoMore | src/launcherlib/connection.cpp:463-519 | whatever follows a printed request, or nothing, the verdict is the same and what follows is left unread: the booster never waits for more bytes than were sent |
| RequestProofs.CutRequestIsRefused | src/launcherlib/connection.cpp:463-519 | a printed request cut anywhere short of its end is refused without acknowledgement |
| RequestProofs.OrderIsIrrelevant | src/launcherlib/connection.cpp:467-518 | blocks of different kinds are decoded alike in every order |
| RequestProofs.FieldsComeFromLastBlocks | src/launcherlib/connection.cpp:474-506 | in any list of blocks, repeated kinds included, each field comes from the last block of its kind, or stays |
| RequestProofs.BlocksAllOrNothing | src/launcherlib/connection.cpp:463-519 | any list of printed blocks closed by END is applied whole and acknowledged if all blocks fit, and rejected otherwise |
| RequestProofs.OversizeBodyStopsLoop | src/launcherlib/connection.cpp:317-350 | after a block with too long a string or too large a count, the next word is neither an action nor END, so the loop cannot fall back into step |
| RequestProofs.TextIsNoAction | src/common/protocol.h:34-42 | no four nonzero bytes make an action word or END |
| RequestProofs.LengthIsNoAction | src/common/protocol.h:34-42 | no length word of a string is an action word or END |
| RequestProofs.CountedListStopsLoop | src/launcherlib/connection.cpp:330-341 | where a list reader gives up, or is not started, no action follows |
| RequestProofs.BodyRoundTrip | src/launcherlib/connection.cpp:287-461 | the handler of a block that fits reads back exactly what was printed and leaves the stream behind it |
| RequestProofs.ActionsExtend | src/launcherlib/connection.cpp:139-164 | an accepted stream is accepted just the same when more bytes follow it |
| RequestProofs.RejectionExtends | src/launcherlib/connection.cpp:463-519 | a stream rejected with bytes to spare is rejected just the same when more bytes follow it |
| RequestProofs.EnvironmentMeaning | src/launcherlib/connection.cpp:353-411 | the received environment maps a key to a value if and only if the key has no '=', the entry key=value was received, and no later entry starts with key= |
| RequestProofs.EntryParts | src/launcherlib/connection.cpp:353-362 | an entry is its key, the first '=' and its value; one without '=' has neither |
| RequestProofs.AnyMagic | src/launcherlib/connection.cpp:243-261 | no first word is refused, whatever magic or version; its low byte is the options and its lowest bit says that the invoker waits |
| RequestProofs.AnyName | src/launcherlib/connection.cpp:263-285 | a stream is accepted only if 0x5a5e0000 and a nonempty name come second |
| RequestProofs.AnyAction | src/launcherlib/connection.cpp:463-519 | exactly seven words are actions, each with its handler, and 0xdead0000 ends the loop with the acknowledgement; any other word ends it with a refusal, with nothing after it read |
| RequestProofs.AnyBadCount | src/launcherlib/connection.cpp:317-411 | of a list with a count of 0 or of 1024 and more nothing but the count is read, and the environment is cleared even so |
| RequestProofs.AnyDescriptors | src/launcherlib/connection.cpp:413-461 | the byte is taken in any case, and the descriptors only if exactly three come with it |
| RequestProofs.NumbersOnTheWire | src/common/protocol.h:34-42 | the blocks with numbers or descriptors travel as these action words and numbers, uid before gid |
| RequestProofs.ListOnTheWire | src/invoker/invoker.c:293-349 | arguments and environment travel as their action word, the count and the strings |
| RequestProofs.RequestOnTheWire | src/invoker/invoker.c:484-508 | a request is 0xb0070300 with the options, the name, the seven blocks in the order sent, and 0xdead0000; a negative priority is in two's complement |
| RequestProofs.PrologueRead | src/launcherlib/connection.cpp:243-285 | magic word and name of a printed request are read as sent, up to the blocks; the wait bit is taken from the magic word |
| Protocol.StrRoundTrip | src/launcherlib/connection.cpp:185-225 | a printed string is read back up to 4096 bytes with its NUL; a longer one fails just after its length word |
| Protocol.StrsRoundTrip | src/invoker/invoker.c:293-305 | a list of strings that all fit is read back as sent |
| Protocol.LongStrStopsReader | src/launcherlib/connection.cpp:332-341 | otherwise the reader stops inside the first string that is too long |
| Protocol.WordRoundTrip | src/invoker/invokelib.c:29-39 | a word survives being written and read |
| Protocol.IntRoundTrip | src/invoker/invoker.c:307-320 | an int travels in two's complement and survives the conversion to uint32_t and back |
| Protocol.RecvStr | src/launcherlib/connection.cpp:185-225 | receiving never lengthens the stream, and a received string shortens it |
| Protocol.AnyStr | src/launcherlib/connection.cpp:185-225 | of any stream: a length of 0 or above 4096 fails and nothing more is read; a stream that ends too early is used up; otherwise the last byte counts as NUL whatever it is and the string ends at its first NUL |
| Protocol.WordOnTheWire | src/invoker/invokelib.c:29-33 | a word travels as four bytes, the low one first |
| Protocol.StrOnTheWire | src/invoker/invokelib.c:41-56 | a string travels as the length with the NUL, its bytes and the NUL, and nothing else |
| Request.Actions | src/launcherlib/connection.cpp:463-519 | the action loop ends on every finite stream; a rejected one was sent nothing |
| Request.ReceiveApplicationData | src/launcherlib/connection.cpp:521-557 | a refused request was sent nothing |
| BoosterConnection.Connection.Receive | src/launcherlib/connection.cpp:521-557 | the in-place parser fills fields, environment and decoded request exactly as the specification says, accepted or refused |
| BoosterConnection.Connection.ReceiveActions | src/launcherlib/connection.cpp:463-519 | the loop computes the verdict of the specification on every stream, and its bytes left go down each turn |
| BoosterConnection.Connection.ReceiveArgv | src/launcherlib/connection.cpp:330-341 | the loop keeps the strings received before one that fails, and stops where that one did |
| BoosterConnection.Connection.HandleArgs | src/launcherlib/connection.cpp:317-350 | success means between 1 and 1023 arguments, all received |
| BoosterConnection.Connection.ReceiveEntries | src/launcherlib/connection.cpp:372-402 | the loop puts each entry with '=' into the environment and skips the others without losing its place |
| BoosterConnection.Connection.HandleEnv | src/launcherlib/connection.cpp:484-488 | the environment is cleared first, whatever follows |
| BoosterConnection.Connection.HandleIO | src/launcherlib/connection.cpp:413-461 | one byte is taken; the descriptors only if exactly three came with it |
| BoosterConnection.Connection.ReceiveMagicWord | src/launcherlib/connection.cpp:243-261 | the option bits are the low byte, and the wait bit decides whether pid and status will be sent |
| BoosterConnection.Connection.ReceiveName | src/launcherlib/connection.cpp:263-285 | a wrong tag or a string that fails gives the empty name |
| BoosterConnection.Connection.ReceiveStr | src/launcherlib/connection.cpp:185-225 | the in-place reader of one string agrees with the specification on every stream, truncated ones included |
| BoosterConnection.Connection.SendPid | src/launcherlib/connection.cpp:227-233 | sends the PID tag and the pid |
| BoosterConnection.Connection.SendAppExitStatus | src/launcherlib/connection.cpp:235-241 | sends the EXIT tag and the status as a word |
| BoosterConnection.AppData.constructor | src/launcherlib/appdata.cpp:28-43 | a fresh request is all empty |
| InvokerProgram.ParseOptions | src/invoker/invoker.c:606-669 | after every sequence of options the option word is 1 without --no-wait, plus 2, 4 and 8 for the options given, and wait_term agrees with it; the respawn delay is the last one given, or 3; the invoker exits just when some option is one that ends it or a respawn delay of 0 or above 10 |
| InvokerProgram.Invoker.SendRequest | src/invoker/invoker.c:497-508 | writing piece by piece produces exactly the printed request |
| InvokerProgram.Invoker.SendArgs | src/invoker/invoker.c:293-305 | the loop sends the count and then every argument, as one ARGS block |
| InvokerProgram.Invoker.SendEnv | src/invoker/invoker.c:332-349 | counting up to the NULL and sending each entry gives one ENV block of all entries before the NULL |
| InvokerProgram.Invoker.SendStr | src/invoker/invokelib.c:41-56 | a string travels as its length with NUL, its bytes and the NUL |
| InvokerProgram.Invoker.SendIO | src/invoker/invoker.c:352-387 | the descriptors travel attached to one byte after the IO word |
| InvokerProgram.Invoker.SendIDs | src/invoker/invoker.c:323-329 | uid and gid form one IDS block |
| InvokerProgram.Invoker.AwaitOutcome | src/invoker/invoker.c:515-531 | the blocking reads of ACK, PID and EXIT give the outcome of the invoker's automaton on the words that arrive; at the end of the stream each read keeps what its own variable held |
| Session.LaunchTheorem | src/invoker/invoker.c:484-532 | from options and the first byte of the request to exit status: however both sides interleave, a finished exchange whose booster was not killed gives a waiting invoker the status of the application exactly if the request was accepted, names a file and met no running instance, and a lost connection if one of the last two fails; 0 to one that does not wait; an error to a refused one, or SIGPIPE while it is still sending; the booster sees the options given |
| Session.OutcomeOfExchange | src/invoker/invoker.c:497-531 | only a refusal or a kill of the booster breaks an invoker, and otherwise the number of reply words written decides its outcome |
| Session.EarlyVerdictIsRefusal | src/launcherlib/connection.cpp:463-519 | a booster that makes up its mind before the whole request has come refuses it |
| Session.BothSidesAgree | src/launcherlib/connection.cpp:506-512 | for all options, requests and answers of the single-instance plugin what the booster writes is the start of what the invoker reads; all of it exactly when the request is accepted and, if the invoker waits, also run |
| Session.NeverStuck | src/invoker/invoker.c:484-532 | from the first byte of the request on, until booster and invoker are done, one of them can move, although the booster blocks on the open stream until it has read enough |
| Session.EveryLaunchEnds | src/invoker/invoker.c:484-532 | from the first byte of the request no launch makes more than request bytes + 2 * reply words + 6 moves, and each that is not over has a next one, so every launch ends |
| Session.TalkIsBounded | src/invoker/invoker.c:515-531 | every conversation is finite, with a bound on its moves |
| Session.InterleavingIsIrrelevant | src/invoker/invokelib.c:35-39 | the outcome is that of an invoker that reads the written words all alone, whatever the interleaving and whatever its variables held |
| Session.OutcomeByWordsWritten | src/invoker/invoker.c:232-269 | the number of words written before the booster closed or was killed decides the outcome in all interleavings: an invoker that waits dies with 1 after none or one, returns 250 after two or three, an unread status after four and the status after five; one that does not wait dies with 1 after none and returns 0 after one |
| Session.ShortReply | src/invoker/invoker.c:232-269 | what an invoker makes of each start of a full reply |
| BoosterProcess.Booster.Live | src/launcherlib/booster.cpp:94-256 | a booster's whole life, whatever comes over the socket: what it writes is the script the session results are about; it exits with 1 if the request is refused, with 0 or 1 if a running instance was asked for and could or could not be activated, and otherwise tells the daemon once, naming the invoker if that waits, and exits with 0 |
| BoosterProcess.Booster.Initialize | src/launcherlib/booster.cpp:94-156 | a refused request ends the booster with 1; a single-instance request that meets a running instance with 0 if that is activated and 1 if not; any other is announced once, and the argument block holds the application's arguments with no trace of the temporary name |
| BoosterProcess.Booster.ReceiveDataFromInvoker | src/launcherlib/booster.cpp:195-221 | agrees with the specification on every stream; on a printed request it succeeds exactly within the limits, and then holds the request that was sent |
| BoosterProcess.Booster.SendDataToParent | src/launcherlib/booster.cpp:173-193 | announces type, waiting invoker and respawn delay |
| BoosterProcess.Booster.InvokersPid | src/launcherlib/booster.cpp:448-458 | what is announced as invoker is what the supervisor's step system takes it to be: 0 unless it waits |
| BoosterProcess.Booster.Run | src/launcherlib/booster.cpp:223-256 | a status is sent exactly when there is a file to run and the invoker waits |
| ArgBlock.OnlyLastNameIsLeft | src/launcherlib/booster.cpp:258-295 | after any sequence of renames the block holds the last name alone, and what lies behind it is untouched |
| ArgBlock.RenamedReadsBack | src/launcherlib/booster.cpp:273-294 | split at NULs, the used part gives exactly the new arguments if they fit, else the first ones with the last possibly cut; either way the fields with their NULs fill the used part exactly, and the rest of the block is zero |
| ArgBlock.RenamedBytes | src/launcherlib/booster.cpp:273-294 | byte by byte: the arguments with their NULs as far as there is room for them and one more NUL, then zeros |
| ArgBlock.CapacityIsTheArguments | src/launcherlib/booster.cpp:263-267 | the capacity is the room of the original arguments with their NULs: it ends with the last NUL and holds just as many fields as there are arguments |
| ArgBlock.FieldsOfCut | src/launcherlib/booster.cpp:287-294 | cutting a flattened list at any length leaves a list that is a prefix up to its last, cut, field |
| ArgBlock.Booster.RenameProcess | src/launcherlib/booster.cpp:258-295 | in place, the first bytes become the new arguments as far as they fit, the last used byte and all behind it up to the capacity become NUL, and nothing past the capacity changes; the capacity is measured on the first call and never again |
| ArgBlock.Booster.MeasureSpace | src/launcherlib/booster.cpp:263-267 | summing the string lengths gives the end of the last original argument |
| ArgBlock.Booster.Overwrite | src/launcherlib/booster.cpp:280-294 | clear, copy and terminate give the bytes that fit, a NUL in the last used place and zeros behind, and never write past the capacity |
| ArgBlock.Booster.Flatten | src/launcherlib/booster.cpp:273-278 | the loop builds all arguments, each with its NUL |
| Sockets.RegistryHoldsLastOfEachType | src/launcherlib/boosterpluginregistry.cpp:73-90 | however plugins are registered there is one entry for each type, the last one registered |
| Sockets.BoosterPluginRegistry.RegisterPlugin | src/launcherlib/boosterpluginregistry.cpp:73-90 | updating or appending in place does what the specification says |
| Sockets.BoosterPluginRegistry.PluginEntry | src/launcherlib/boosterpluginregistry.cpp:107-121 | the loop finds the first entry of the type, or none |
| Sockets.SocketManager.CloseUnusedSockets | src/launcherlib/daemon.cpp:567-578 | a child's table loses exactly the names of other types, and each descriptor given up is closed exactly once |
| Sockets.ChildKeepsOnlyItsSocket | src/launcherlib/daemon.cpp:567-578 | with one plugin a type and distinct names, a child is left with its own socket and nothing else |
| Sockets.OwnSocketSurvivesIff | src/launcherlib/daemon.cpp:572-577 | a child's own socket survives if and only if no plugin of another type has its name |
| Sockets.EnterChild | src/launcherlib/daemon.cpp:433-457 | a forked child finds the very descriptor that was opened for its type, still open, has nothing else in its table, and has closed exactly the sockets of the other types, each once |
| Sockets.OpenForBusiness | src/launcherlib/daemon.cpp:174-190 | whatever plugins are registered, in any order, the daemon comes to forking with one entry for each type, the last registered, and a socket for each name |
| Sockets.ChildsTable | src/launcherlib/daemon.cpp:567-578 | the set of descriptors given up, read as plugins: exactly those of other types |
| Sockets.SocketManager.InitBoosterSockets | src/launcherlib/daemon.cpp:146-158 | afterwards there is a socket for exactly the names of the plugins, on distinct descriptors |
| Sockets.SocketManager.InitSocket | src/launcherlib/socketmanager.cpp:29-72 | a name gets a socket unless it has one; all others stay |
| Sockets.SocketManager.CloseSocket | src/launcherlib/socketmanager.cpp:74-83 | closes and forgets the socket of that name, if any |
| Sockets.SocketManager.CloseAllSockets | src/launcherlib/socketmanager.cpp:85-97 | every positive descriptor is closed once and the table is empty |
| MkPath.FileSystem.MakePath | src/single-instance/main.cpp:43-66 | afterwards every directory on the way exists, new ones with mode 0777, old ones unchanged, nothing else created, and parents still closed, for any placement of slashes |
| MkPath.FileSystem.MakePart | src/single-instance/main.cpp:50-62 | one mkdir, with chmod only on success, extends the directories made by one |
| MkPath.ComponentsJoin | src/single-instance/main.cpp:47-49 | a slash separates names and does nothing else, wherever and however often it stands |
| MkPath.NameIsOneComponent | src/single-instance/main.cpp:47-49 | text without a slash is one name |
| MkPath.CompleteStep | src/single-instance/main.cpp:47-49 | the loop's condition is true exactly where a name of the path is complete, or at the end |

## Left out

- System calls, sockets, `dlopen`, `prctl`, `setenv("_")`, credentials and the change of uid and gid: calls without logic of their own.
- Failing `read`, `write`, `fork` or `kill`, full pipes, and the window between `fork` and the child's reset of its signal handlers: not intended behaviour of the protocol.
- What uid and gid are when a stream has no IDS block: the original leaves them uninitialised.
- Streams that no invoker prints: they are parsed exactly as the code does. An accepted one may leave a count with fewer arguments (an ARGS block failed and the loop fell back into step); the original then reads array elements that were never set, and the model takes the arguments that were received.
- Sleeping, the effect of the respawn delay, and process priorities: real time only. The delay travels in requests and announcements, and the supervisor's announcements drop it.
- LauncherDaemon.Daemon.Serve: the endless main loop is any number of turns, and a turn in which select finds nothing stands for sleeping on.
- LauncherDaemon.Kernel: the calls `waitpid`, `kill` and `fork` for one child are one step, so another process does not act between them; within the reap loop it acts between children.
- Session.OutcomeByWordsWritten: of the invoker's uninitialised variables, assumes that those compared do not by chance hold the awaited word.
- LauncherDaemon.Daemon.ReadFromBoosterPipe: a read that comes up short leaves the fields alone; in the original the invoker is already noted when the delay is the one that is short, but the daemon exits.
- SupervisorProgress.NeverBlocked: holds of whole announcements only, because inside a torn one the original blocks or exits. A daemon blocked there takes no step, and the run goes on with the others'.
- InvokerProgram.ParseOptions: works on options already split from the command line; parsing of numbers, the application type and the start-up delay are not modelled.
- BoosterProcess.Booster.Live: the launched application is its exit status; a crash of it is an event of the supervisor and a killed booster of the session.
- The fcntl lock of the single-instance plugin and the activation of windows: only their answers appear.
- The X11 window search, the Qt event loop, booster subclasses and their factories, the logger, `preload.h`, argument help, `consoleQuiet` and `daemonize`: user interface, thin wrappers or easy members.
- `invoke_fallback`: nothing on the invoke path calls it.
- Setters of the decoded request and `deleteArgv`: the fields are assigned directly and memory is not freed.
- The names `.` and `..` and symbolic links are ordinary names to the path model, and a failing `chmod` is left out.
- Forwarding of signals by a waiting invoker to the application.
