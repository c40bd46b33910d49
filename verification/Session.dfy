/**
 The exchange of one invoker and one booster: the invoker sends its request byte by byte, and the
 booster, once it has read enough of it, writes its reply word by word while the invoker reads.
*/
module Session {
  import opened Protocol
  import opened Request
  import opened RequestProofs

  // ---------- What the invoker's options mean ----------

  datatype Opt =
    | WaitTerm | NoWait | GlobalSyms | DeepSyms | SingleInstance
    | Respawn(secs: word)
    | Leave // help, credentials, an unknown option: the invoker exits

  const RESPAWN_DELAY: word := 3
  const MAX_RESPAWN_DELAY: word := 10

  datatype Settings = Settings(waitTerm: bool, magicOptions: word, respawnDelay: word)

  predicate BadOption(o: Opt) {
    o.Leave? || (o.Respawn? && (o.secs == 0 || o.secs > MAX_RESPAWN_DELAY))
  }

  /** The delay is the last respawn delay given, or 3 when none is given. */
  ghost predicate IsDelay(opts: seq<Opt>, delay: int) {
    && (forall i | 0 <= i < |opts| && opts[i].Respawn? && (forall j | i < j < |opts| :: !opts[j].Respawn?) ::
          delay == opts[i].secs)
    && ((forall i | 0 <= i < |opts| :: !opts[i].Respawn?) ==> delay == 3)
  }

  lemma IsDelaySnoc(opts: seq<Opt>, delay: int, o: Opt)
    requires IsDelay(opts, delay)
    ensures IsDelay(opts + [o], if o.Respawn? then o.secs else delay)
  {
    var more := opts + [o];
    assert more[|opts|] == o;
    assert forall i | 0 <= i < |opts| :: more[i] == opts[i];
  }

  /** The option bits: wait, global symbols, deep symbols and single instance. */
  function Bits(wait: bool, global: bool, deep: bool, single: bool): word {
    (if wait then 1 else 0) + (if global then 2 else 0) + (if deep then 4 else 0) + (if single then 8 else 0)
  }

  /** What a sequence of options asks for. An option that was given cannot be taken back, except that
      a later respawn delay replaces an earlier one. */
  ghost predicate MeantBy(opts: seq<Opt>, s: Settings) {
    && s.waitTerm == (NoWait !in opts)
    && s.magicOptions == (if NoWait in opts then 0 else 1) + (if GlobalSyms in opts then 2 else 0)
                         + (if DeepSyms in opts then 4 else 0) + (if SingleInstance in opts then 8 else 0)
    && IsDelay(opts, s.respawnDelay) && 0 < s.respawnDelay <= 10
  }

  function SetBit(w: word, bit: word): word
    requires bit > 0 && w < 0x10 && bit < 0x10
  {
    if HasBit(w, bit) then w else w + bit
  }

  function ClearWaitBit(w: word): word {
    if HasBit(w, OPTION_WAIT) then w - 1 else w
  }

  /** Each option bit can be set, the wait bit cleared, and each be asked for, without regard to the
      others. */
  lemma BitFacts(wait: bool, global: bool, deep: bool, single: bool)
    ensures var w := Bits(wait, global, deep, single);
            && w < 0x10
            && HasBit(w, 1) == wait && HasBit(w, 2) == global && HasBit(w, 4) == deep && HasBit(w, 8) == single
            && ClearWaitBit(w) == Bits(false, global, deep, single)
            && SetBit(w, OPTION_DLOPEN_GLOBAL) == Bits(wait, true, deep, single)
            && SetBit(w, OPTION_DLOPEN_DEEP) == Bits(wait, global, true, single)
            && SetBit(w, OPTION_SINGLE_INSTANCE) == Bits(wait, global, deep, true)
  {
  }

  /** The settings after one more option. */
  function Obey(s: Settings, o: Opt): Settings
    requires s.magicOptions < 0x10
  {
    match o
    case NoWait => s.(waitTerm := false, magicOptions := ClearWaitBit(s.magicOptions))
    case GlobalSyms => s.(magicOptions := SetBit(s.magicOptions, OPTION_DLOPEN_GLOBAL))
    case DeepSyms => s.(magicOptions := SetBit(s.magicOptions, OPTION_DLOPEN_DEEP))
    case SingleInstance => s.(magicOptions := SetBit(s.magicOptions, OPTION_SINGLE_INSTANCE))
    case Respawn(secs) => s.(respawnDelay := secs)
    case _ => s
  }

  lemma ObeyedAsMeant(opts: seq<Opt>, s: Settings, o: Opt)
    requires MeantBy(opts, s) && !BadOption(o)
    ensures MeantBy(opts + [o], Obey(s, o))
  {
    IsDelaySnoc(opts, s.respawnDelay, o);
    BitFacts(s.waitTerm, GlobalSyms in opts, DeepSyms in opts, SingleInstance in opts);
    hide IsDelay, HasBit, SetBit, ClearWaitBit;
    assert forall q :: q in opts + [o] <==> q in opts || q == o;
  }

  // ---------- What the booster replies ----------

  /** What the single-instance plugin answers when it is asked for the lock. */
  datatype Instance = NoPlugin | Locked | Running(activated: bool)

  /** The application is already running and the request asked for a single instance. */
  predicate SecondInstance(options: word, instance: Instance) {
    HasBit(options, OPTION_SINGLE_INSTANCE) && instance.Running?
  }

  /** The request names a file to run, and no running instance takes it over. */
  predicate IsRun(app: App, instance: Instance) {
    app.fileName != [] && !SecondInstance(ToWord(app.options), instance)
  }

  /** All the words a booster writes back, when the application returns `status` and nobody kills
      it. A request that is accepted is acknowledged even if there is nothing to launch, or if
      another instance takes over; then no status follows. */
  function ScriptOf(d: Reception, instance: Instance, status: int): seq<word> {
    match d
    case Launch(app, c) => c.sent + (if c.sendPid && IsRun(app, instance) then [MSG_EXIT, ToWord(status)] else [])
    case Refuse(c) => c.sent
  }

  // ---------- The invoker's side ----------

  const CONNECTION_LOST := 0xfa

  datatype Outcome =
    | Returned(status: int)
    | Died(code: int)
    | Broken // killed by SIGPIPE, for sending to a booster that has closed

  datatype InvokerPc =
    | AwaitAck
    | AwaitPidTag
    | AwaitPid
    | AwaitExitTag
    | AwaitStatus
    | Finished(outcome: Outcome)

  function Hear(waitTerm: bool, pc: InvokerPc, w: word): InvokerPc {
    match pc
    case AwaitAck =>
      if w != MSG_ACK then Finished(Died(1)) else if waitTerm then AwaitPidTag else Finished(Returned(0))
    case AwaitPidTag => if w == MSG_PID then AwaitPid else Finished(Died(1))
    case AwaitPid => AwaitExitTag
    case AwaitExitTag => if w == MSG_EXIT then AwaitStatus else Finished(Returned(CONNECTION_LOST))
    case AwaitStatus => Finished(Returned(ToInt(w)))
    case Finished(_) => pc
  }

  /** How many more reads the invoker can make. */
  function Rank(pc: InvokerPc): nat {
    match pc
    case AwaitAck => 5
    case AwaitPidTag => 4
    case AwaitPid => 3
    case AwaitExitTag => 2
    case AwaitStatus => 1
    case Finished(_) => 0
  }

  /** What the invoker's variables hold before anything is read into them. Each read has one of its
      own, none is initialised, and a read at the end of the stream leaves it alone. */
  datatype Leftover = Leftover(ack: word, pidTag: word, pid: word, exitTag: word, status: word)

  function At(left: Leftover, pc: InvokerPc): word {
    match pc
    case AwaitAck => left.ack
    case AwaitPidTag => left.pidTag
    case AwaitPid => left.pid
    case AwaitExitTag => left.exitTag
    case AwaitStatus => left.status
    case Finished(_) => 0
  }

  /** By chance none of them is the word that is waited for. */
  predicate Unlike(left: Leftover) {
    left.ack != MSG_ACK && left.pidTag != MSG_PID && left.exitTag != MSG_EXIT
  }

  /** The outcome of an invoker at `pc` that can read these words and then meets the end. */
  function Listen(waitTerm: bool, pc: InvokerPc, words: seq<word>, left: Leftover): Outcome
    decreases |words|, Rank(pc)
  {
    if pc.Finished? then pc.outcome
    else if words == [] then Listen(waitTerm, Hear(waitTerm, pc, At(left, pc)), [], left)
    else Listen(waitTerm, Hear(waitTerm, pc, words[0]), words[1..], left)
  }

  // ---------- Both sides ----------

  /** `script` is what the booster will write if it lives; `written` and `heard` count the words
      written and read so far. */
  datatype Talk = Talk(
    waitTerm: bool, script: seq<word>, left: Leftover,
    written: nat, closed: bool, killed: bool, heard: nat, pc: InvokerPc)

  datatype Move =
    | Write   // the booster writes its next word
    | Close   // the booster has nothing more to write
    | Kill    // the booster dies with words unwritten
    | Read    // the invoker reads a word
    | ReadEof // the invoker reads at the end of the stream

  predicate Possible(t: Talk, m: Move) {
    match m
    case Write => !t.closed && t.written < |t.script|
    case Close => !t.closed && t.written == |t.script|
    case Kill => !t.closed && t.written < |t.script|
    case Read => !t.pc.Finished? && t.heard < t.written <= |t.script|
    case ReadEof => !t.pc.Finished? && t.heard == t.written && t.closed
  }

  function Do(t: Talk, m: Move): Talk
    requires Possible(t, m)
  {
    match m
    case Write => t.(written := t.written + 1)
    case Close => t.(closed := true)
    case Kill => t.(closed := true, killed := true)
    case Read => t.(heard := t.heard + 1, pc := Hear(t.waitTerm, t.pc, t.script[t.heard]))
    case ReadEof => t.(pc := Hear(t.waitTerm, t.pc, At(t.left, t.pc)))
  }

  predicate CanTalk(t: Talk, ms: seq<Move>)
    decreases |ms|
  {
    ms == [] || (Possible(t, ms[0]) && CanTalk(Do(t, ms[0]), ms[1..]))
  }

  function TalkAll(t: Talk, ms: seq<Move>): Talk
    requires CanTalk(t, ms)
    decreases |ms|
  {
    if ms == [] then t else TalkAll(Do(t, ms[0]), ms[1..])
  }

  function Opening(waitTerm: bool, script: seq<word>, left: Leftover): Talk {
    Talk(waitTerm, script, left, 0, false, false, 0, AwaitAck)
  }

  predicate Over(t: Talk) {
    t.closed && t.pc.Finished?
  }

  // ---------- Nobody waits for ever ----------

  /** The launch as a whole: so many bytes of the request have been sent, and so far has the reply
      come. */
  datatype Exchange = Exchange(request: seq<Octet>, given: nat, talk: Talk)

  /** The booster has read enough: whatever is sent after these bytes, it comes to the same verdict.
      Until then its reads on the open stream may block. */
  ghost predicate Decided(c: Conn, arrived: seq<Octet>) {
    forall more :: SameVerdict(c, arrived, more)
  }

  ghost predicate SameVerdict(c: Conn, arrived: seq<Octet>, more: seq<Octet>) {
    ReceiveApplicationData(c.(input := arrived + more))
      == Later(ReceiveApplicationData(c.(input := arrived)), more)
  }

  /** Sending a byte is `None`. The invoker reads only after it has sent everything, and the booster
      replies only when it has decided; it may be killed at any time. */
  ghost predicate CanAct(x: Exchange, c: Conn, m: Option<Move>) {
    match m
    case None => x.given < |x.request| && !x.talk.pc.Finished?
    case Some(move) =>
      && Possible(x.talk, move)
      && (move.Read? || move.ReadEof? ==> x.given == |x.request|)
      && (move.Write? || move.Close? ==> x.given <= |x.request| && Decided(c, x.request[..x.given]))
  }

  /** Sending breaks the invoker when the booster has closed, because a request was refused or the
      booster was killed. */
  ghost function Act(x: Exchange, c: Conn, m: Option<Move>): Exchange
    requires CanAct(x, c, m)
  {
    match m
    case None =>
      if x.talk.closed then x.(talk := x.talk.(pc := Finished(Broken))) else x.(given := x.given + 1)
    case Some(move) => x.(talk := Do(x.talk, move))
  }

  ghost predicate CanExchange(x: Exchange, c: Conn, ms: seq<Option<Move>>)
    decreases |ms|
  {
    ms == [] || (CanAct(x, c, ms[0]) && CanExchange(Act(x, c, ms[0]), c, ms[1..]))
  }

  ghost function ExchangeAll(x: Exchange, c: Conn, ms: seq<Option<Move>>): Exchange
    requires CanExchange(x, c, ms)
    decreases |ms|
  {
    if ms == [] then x else ExchangeAll(Act(x, c, ms[0]), c, ms[1..])
  }

  /** From the first byte of the request. */
  ghost function Launching(r: LaunchRequest, waitTerm: bool, script: seq<word>, left: Leftover): Exchange
    requires Sent(r)
  {
    Exchange(PrintRequest(r), 0, Opening(waitTerm, script, left))
  }

  /** What every state of an exchange satisfies: as long as the invoker is sending, it has read
      nothing, or has been broken. */
  ghost predicate Orderly(x: Exchange) {
    && x.given <= |x.request|
    && x.talk.heard <= x.talk.written <= |x.talk.script|
    && (x.given < |x.request| ==> x.talk.pc == AwaitAck || (x.talk.pc == Finished(Broken) && x.talk.closed))
  }

  /** The launch cannot get stuck: until the booster has closed and the invoker has its outcome, one
      of them can move. In particular the booster never waits for bytes beyond the request while the
      invoker waits for its acknowledgement, not even when the request is refused half way. */
  lemma NeverStuck(r: LaunchRequest, c: Conn, x: Exchange) returns (m: Option<Move>)
    requires Sent(r) && x.request == PrintRequest(r) && Orderly(x) && !Over(x.talk)
    ensures CanAct(x, c, m)
  {
    hide PrintRequest;
    var t := x.talk;
    if x.given < |x.request| {
      m := None;
    } else {
      assert x.request[..x.given] == x.request;
      RequestIsEnough(r, c);
      m := Some(if t.closed then (if t.heard < t.written then Read else ReadEof)
                else if t.written < |t.script| then Write else Close);
    }
  }

  /** No exchange is longer than this. */
  lemma {:induction false} ExchangeIsBounded(x: Exchange, c: Conn, ms: seq<Option<Move>>)
    requires Orderly(x) && CanExchange(x, c, ms)
    ensures Orderly(ExchangeAll(x, c, ms)) && ExchangeAll(x, c, ms).request == x.request
    ensures |ms| <= |x.request| - x.given + Patience(x.talk)
    decreases |ms|
  {
    hide Orderly, CanAct, Act, Patience;
    if ms == [] {
      NothingLeftIsNonnegative(x);
    } else {
      ActGoesOn(x, c, ms[0]);
      ExchangeIsBounded(Act(x, c, ms[0]), c, ms[1..]);
    }
  }

  lemma NothingLeftIsNonnegative(x: Exchange)
    requires Orderly(x)
    ensures 0 <= |x.request| - x.given + Patience(x.talk)
  {
  }

  lemma ActGoesOn(x: Exchange, c: Conn, m: Option<Move>)
    requires Orderly(x) && CanAct(x, c, m)
    ensures var y := Act(x, c, m);
            Orderly(y) && y.request == x.request && Patience(y.talk) - y.given < Patience(x.talk) - x.given
  {
    hide Decided;
  }

  /** Every launch ends: from the first byte of the request there are only so many moves, and as long as
      it is not over there is one more. */
  lemma EveryLaunchEnds(r: LaunchRequest, c: Conn, waitTerm: bool, script: seq<word>, left: Leftover,
                        ms: seq<Option<Move>>) returns (more: Option<Option<Move>>)
    requires Sent(r) && CanExchange(Launching(r, waitTerm, script, left), c, ms)
    ensures var x := ExchangeAll(Launching(r, waitTerm, script, left), c, ms);
            && |ms| <= |PrintRequest(r)| + 2 * |script| + 6
            && (more.None? <==> Over(x.talk))
            && (more.Some? ==> CanAct(x, c, more.value))
  {
    hide PrintRequest, CanExchange, ExchangeAll, CanAct;
    ExchangeIsBounded(Launching(r, waitTerm, script, left), c, ms);
    var x := ExchangeAll(Launching(r, waitTerm, script, left), c, ms);
    more := None;
    if !Over(x.talk) {
      var m := NeverStuck(r, c, x);
      more := Some(m);
    }
  }

  lemma RequestIsEnough(r: LaunchRequest, c: Conn)
    requires Sent(r)
    ensures Decided(c, PrintRequest(r))
  {
    hide PrintRequest, ReceiveApplicationData, Later;
    forall more ensures SameVerdict(c, PrintRequest(r), more) {
      VerdictNeedsNoMore(r, c, more);
    }
  }

  /** How much can still happen, at most. */
  function Patience(t: Talk): int {
    (|t.script| - t.written) + (|t.script| - t.heard) + (if t.closed then 0 else 1) + Rank(t.pc)
  }

  lemma {:induction false} TalkIsBounded(t: Talk, ms: seq<Move>)
    requires t.heard <= t.written <= |t.script| && CanTalk(t, ms)
    ensures var u := TalkAll(t, ms);
            u.heard <= u.written <= |u.script| && u.script == t.script && u.waitTerm == t.waitTerm && u.left == t.left
    ensures |ms| <= Patience(t)
    decreases |ms|
  {
    if ms != [] {
      TalkIsBounded(Do(t, ms[0]), ms[1..]);
    }
  }

  lemma {:induction false} ClosedStaysClosed(t: Talk, ms: seq<Move>)
    requires t.closed && CanTalk(t, ms)
    ensures TalkAll(t, ms).written == t.written
    decreases |ms|
  {
    if ms != [] {
      ClosedStaysClosed(Do(t, ms[0]), ms[1..]);
    }
  }

  /** The outcome does not depend on how the two sides interleave, only on the words that were
      written: it is that of an invoker that reads them all alone. */
  lemma {:induction false} InterleavingIsIrrelevant(t: Talk, ms: seq<Move>)
    requires t.heard <= t.written <= |t.script| && CanTalk(t, ms) && Over(TalkAll(t, ms))
    ensures var u := TalkAll(t, ms);
            && t.written <= u.written <= |t.script|
            && u.pc.outcome == Listen(t.waitTerm, t.pc, t.script[t.heard..u.written], t.left)
    decreases |ms|
  {
    if ms != [] {
      var t1 := Do(t, ms[0]);
      InterleavingIsIrrelevant(t1, ms[1..]);
      var u := TalkAll(t, ms);
      var words := t.script[t.heard..u.written];
      if ms[0].Read? {
        assert words[1..] == t.script[t1.heard..u.written];
      } else if ms[0].ReadEof? {
        ClosedStaysClosed(t, ms);
        assert words == [];
      }
    }
  }

  // ---------- What a reply leads to ----------

  /** The words that an invoker expects of an application that returns `status`. */
  function FullReply(waitTerm: bool, self: word, status: int): seq<word> {
    if waitTerm then [MSG_ACK, MSG_PID, self, MSG_EXIT, ToWord(status)] else [MSG_ACK]
  }

  /** What an invoker makes of the first n words of the full reply, when no more come. */
  function OutcomeOf(waitTerm: bool, n: nat, status: int, left: Leftover): Outcome {
    if n == 0 || (n == 1 && waitTerm) then Died(1)
    else if !waitTerm then Returned(0)
    else if n <= 3 then Returned(CONNECTION_LOST)
    else if n == 4 then Returned(ToInt(left.status))
    else Returned(status)
  }

  lemma ShortReply(waitTerm: bool, self: word, status: int, n: nat, left: Leftover)
    requires -0x8000_0000 <= status < 0x8000_0000 && n <= |FullReply(waitTerm, self, status)| && Unlike(left)
    ensures Listen(waitTerm, AwaitAck, FullReply(waitTerm, self, status)[..n], left)
         == OutcomeOf(waitTerm, n, status, left)
  {
    IntRoundTrip(status);
    var words := FullReply(waitTerm, self, status)[..n];
    ListenOn(waitTerm, AwaitAck, words, left);
    if n > 0 && waitTerm {
      ListenOn(waitTerm, AwaitPidTag, words[1..], left);
      if n > 1 {
        ListenOn(waitTerm, AwaitPid, words[2..], left);
        var last := if n > 3 then words[3..] else [];
        ListenOn(waitTerm, AwaitExitTag, last, left);
        if n > 3 {
          ListenOn(waitTerm, AwaitStatus, last[1..], left);
        }
      }
    }
  }

  lemma ListenOn(waitTerm: bool, pc: InvokerPc, words: seq<word>, left: Leftover)
    requires !pc.Finished?
    ensures var w := if words == [] then At(left, pc) else words[0];
            var next := Hear(waitTerm, pc, w);
            && Listen(waitTerm, pc, words, left) == Listen(waitTerm, next, if words == [] then [] else words[1..], left)
            && (next.Finished? ==> Listen(waitTerm, pc, words, left) == next.outcome)
  {
  }

  /** Whatever part of the full reply gets written before the booster closes or is killed, and however
      the two sides interleave, the number of words written decides the outcome. Only between the
      last two can a kill make the invoker return a status that no one sent. */
  lemma OutcomeByWordsWritten(t: Talk, self: word, status: int, ms: seq<Move>)
    requires -0x8000_0000 <= status < 0x8000_0000 && Unlike(t.left)
    requires t == Opening(t.waitTerm, t.script, t.left) && t.script <= FullReply(t.waitTerm, self, status)
    requires CanTalk(t, ms) && Over(TalkAll(t, ms))
    ensures var u := TalkAll(t, ms);
            && u.pc.outcome == OutcomeOf(t.waitTerm, u.written, status, t.left)
            && (!u.killed ==> u.written == |t.script|)
    ensures var u := TalkAll(t, ms);
            u.pc.outcome ==
              if t.waitTerm then
                if u.written <= 1 then Died(1)
                else if u.written <= 3 then Returned(250)
                else if u.written == 4 then Returned(ToInt(t.left.status))
                else Returned(status)
              else if u.written == 0 then Died(1) else Returned(0)
  {
    var u := TalkAll(t, ms);
    InterleavingIsIrrelevant(t, ms);
    TalkIsBounded(t, ms);
    KilledOrComplete(t, ms);
    assert t.script[0..u.written] == FullReply(t.waitTerm, self, status)[..u.written];
    ShortReply(t.waitTerm, self, status, u.written, t.left);
  }

  lemma {:induction false} KilledOrComplete(t: Talk, ms: seq<Move>)
    requires CanTalk(t, ms) && (t.closed ==> t.killed || t.written == |t.script|)
    ensures var u := TalkAll(t, ms);
            u.script == t.script && (u.closed ==> u.killed || u.written == |u.script|)
    decreases |ms|
  {
    if ms != [] {
      KilledOrComplete(Do(t, ms[0]), ms[1..]);
    }
  }

  // ---------- From the first byte of the request ----------

  /** The moves of the reply in an exchange. */
  ghost function Talked(ms: seq<Option<Move>>): seq<Move> {
    if ms == [] then [] else (if ms[0].Some? then [ms[0].value] else []) + Talked(ms[1..])
  }

  lemma {:induction false} BrokenStays(x: Exchange, c: Conn, ms: seq<Option<Move>>)
    requires CanExchange(x, c, ms) && x.talk.pc == Finished(Broken)
    ensures ExchangeAll(x, c, ms).talk.pc == Finished(Broken)
    decreases |ms|
  {
    hide Decided;
    if ms != [] {
      BrokenStays(Act(x, c, ms[0]), c, ms[1..]);
    }
  }

  /** Unless the invoker is broken, the reply goes as if the request had been there from the start. */
  lemma {:induction false} UnbrokenIsTalk(x: Exchange, c: Conn, ms: seq<Option<Move>>)
    requires CanExchange(x, c, ms) && ExchangeAll(x, c, ms).talk.pc != Finished(Broken)
    ensures CanTalk(x.talk, Talked(ms)) && TalkAll(x.talk, Talked(ms)) == ExchangeAll(x, c, ms).talk
    decreases |ms|
  {
    hide Decided;
    if ms != [] {
      var x1 := Act(x, c, ms[0]);
      UnbrokenIsTalk(x1, c, ms[1..]);
      if ms[0].None? {
        if x.talk.closed {
          BrokenStays(x1, c, ms[1..]);
        }
        assert [] + Talked(ms[1..]) == Talked(ms[1..]);
      } else {
        assert ([ms[0].value] + Talked(ms[1..]))[1..] == Talked(ms[1..]);
      }
    }
  }

  /** The booster closes before the request has come in full only if it refuses or is killed. */
  ghost predicate ClosedForAReason(x: Exchange, refused: bool) {
    && (x.talk.closed && x.given < |x.request| ==> refused || x.talk.killed)
    && (x.talk.pc == Finished(Broken) ==> x.given < |x.request| && x.talk.closed)
  }

  lemma EarlyVerdictIsRefusal(r: LaunchRequest, c: Conn, n: nat)
    requires Sent(r) && n < |PrintRequest(r)| && Decided(c, PrintRequest(r)[..n])
    ensures ReceiveApplicationData(c.(input := PrintRequest(r))).Refuse?
  {
    hide PrintRequest, ReceiveApplicationData;
    var start, more := PrintRequest(r)[..n], PrintRequest(r)[n..];
    assert start + more == PrintRequest(r);
    assert SameVerdict(c, start, more);
    CutRequestIsRefused(r, c.(input := start), n);
  }

  lemma {:induction false} ReasonsStay(r: LaunchRequest, x: Exchange, c: Conn, ms: seq<Option<Move>>)
    requires Sent(r) && x.request == PrintRequest(r) && CanExchange(x, c, ms)
    ensures var refused := ReceiveApplicationData(c.(input := PrintRequest(r))).Refuse?;
            ClosedForAReason(x, refused) ==> ClosedForAReason(ExchangeAll(x, c, ms), refused)
    ensures ExchangeAll(x, c, ms).request == x.request
    decreases |ms|
  {
    hide PrintRequest, ReceiveApplicationData, Decided;
    if ms != [] {
      if ms[0] == Some(Close) && x.given < |x.request| {
        EarlyVerdictIsRefusal(r, c, x.given);
      }
      ReasonsStay(r, Act(x, c, ms[0]), c, ms[1..]);
    }
  }

  // ---------- The whole launch ----------

  /** Whatever options the invoker was given, both sides agree on whether it waits: what the booster
      writes is the start of what the invoker reads. It is all of it exactly when the request is
      accepted and, if the invoker waits, also run. */
  lemma BothSidesAgree(opts: seq<Opt>, s: Settings, r: LaunchRequest, c: Conn, instance: Instance, status: int)
    requires MeantBy(opts, s) && Sent(r) && r.options == s.magicOptions && c.sent == []
    ensures var d := ReceiveApplicationData(c.(input := PrintRequest(r)));
            var full := FullReply(s.waitTerm, c.self, status);
            && full == (if s.waitTerm then [0x600d_0000, 0x1d1d_0000, c.self, 0xe417_0000, ToWord(status)]
                        else [0x600d_0000])
            && ScriptOf(d, instance, status) <= full
            && (d.Refuse? ==> ScriptOf(d, instance, status) == [])
            && (d.Launch? ==>
                  && d.app == AppAsked(r)
                  && (ScriptOf(d, instance, status) == full <==> !s.waitTerm || IsRun(d.app, instance))
                  && (ScriptOf(d, instance, status) != full ==> ScriptOf(d, instance, status) == full[..3]))
  {
    hide ReceiveApplicationData, PrintRequest, PutAll, WithinLimits;
    BitFacts(s.waitTerm, GlobalSyms in opts, DeepSyms in opts, SingleInstance in opts);
    DecodeTheorem(r, c.(input := PrintRequest(r)));
  }

  /** From command line to exit status. However sending, reading, writing, closing and dying
      interleave, when the exchange is over and the booster was not killed meanwhile: a waiting invoker
      ends with the status of the application if the request was accepted, names a file and met no
      running instance that takes it over; in the last two cases it has lost the connection. An invoker
      that does not wait ends with 0. One whose request was refused has died, or was broken while it
      was still sending; nothing but a refusal or a kill breaks it. The booster sees exactly the options
      that were given. */
  lemma LaunchTheorem(opts: seq<Opt>, s: Settings, r: LaunchRequest, c: Conn, instance: Instance, status: int,
                      left: Leftover, ms: seq<Option<Move>>)
    requires MeantBy(opts, s) && Sent(r) && r.options == s.magicOptions && r.respawnDelay == s.respawnDelay
    requires c.sent == [] && -0x8000_0000 <= status < 0x8000_0000 && Unlike(left)
    ensures var d := ReceiveApplicationData(c.(input := PrintRequest(r)));
            var start := Launching(r, s.waitTerm, ScriptOf(d, instance, status), left);
            && (d.Launch? <==> WithinLimits(r) && r.argv[0] != [])
            && (CanExchange(start, c, ms) ==>
                  var t := ExchangeAll(start, c, ms).talk;
                  Over(t) ==>
                    && (t.pc.outcome == Broken ==> d.Refuse? || t.killed)
                    && (!t.killed && t.pc.outcome != Broken ==>
                          t.pc.outcome ==
                            if d.Refuse? then Died(1)
                            else if !s.waitTerm then Returned(0)
                            else if r.exec == [] || (SingleInstance in opts && instance.Running?)
                            then Returned(250)
                            else Returned(status)))
            && (d.Launch? ==>
                  && d.app.options == (if NoWait in opts then 0 else 1) + (if GlobalSyms in opts then 2 else 0)
                                      + (if DeepSyms in opts then 4 else 0) + (if SingleInstance in opts then 8 else 0)
                  && IsDelay(opts, d.app.delay))
  {
    hide ReceiveApplicationData, PrintRequest, PutAll, WithinLimits, FullReply, CanExchange, ExchangeAll, ScriptOf;
    hide HasBit, IsDelay, Launching, Sent, Unlike, IsRun;
    BothSidesAgree(opts, s, r, c, instance, status);
    WhatTheBoosterSees(opts, s, r, c, instance);
    var d := ReceiveApplicationData(c.(input := PrintRequest(r)));
    var script := ScriptOf(d, instance, status);
    if CanExchange(Launching(r, s.waitTerm, script, left), c, ms) {
      OutcomeOfExchange(r, c, s.waitTerm, script, left, c.self, status, ms);
      ReplyLength(s.waitTerm, c.self, status);
    }
  }

  lemma WhatTheBoosterSees(opts: seq<Opt>, s: Settings, r: LaunchRequest, c: Conn, instance: Instance)
    requires MeantBy(opts, s) && Sent(r) && r.options == s.magicOptions && r.respawnDelay == s.respawnDelay
    ensures var d := ReceiveApplicationData(c.(input := PrintRequest(r)));
            && (d.Launch? <==> WithinLimits(r) && r.argv[0] != [])
            && (d.Launch? ==>
                  && d.app.options == (if NoWait in opts then 0 else 1) + (if GlobalSyms in opts then 2 else 0)
                                      + (if DeepSyms in opts then 4 else 0) + (if SingleInstance in opts then 8 else 0)
                  && IsDelay(opts, d.app.delay)
                  && (IsRun(d.app, instance) <==> r.exec != [] && !(SingleInstance in opts && instance.Running?)))
  {
    hide ReceiveApplicationData, PrintRequest, PutAll, WithinLimits, IsDelay;
    BitFacts(s.waitTerm, GlobalSyms in opts, DeepSyms in opts, SingleInstance in opts);
    hide HasBit;
    DecodeTheorem(r, c.(input := PrintRequest(r)));
  }

  /** However an exchange goes in which the booster writes a start of the full reply: an invoker is
      broken only if its request is refused or the booster is killed, and otherwise the number of words
      written decides its outcome. */
  lemma OutcomeOfExchange(r: LaunchRequest, c: Conn, waitTerm: bool, script: seq<word>, left: Leftover,
                          self: word, status: int, ms: seq<Option<Move>>)
    requires Sent(r) && script <= FullReply(waitTerm, self, status)
    requires -0x8000_0000 <= status < 0x8000_0000 && Unlike(left)
    requires CanExchange(Launching(r, waitTerm, script, left), c, ms)
    ensures var t := ExchangeAll(Launching(r, waitTerm, script, left), c, ms).talk;
            Over(t) ==>
              if t.pc.outcome == Broken
              then ReceiveApplicationData(c.(input := PrintRequest(r))).Refuse? || t.killed
              else
                && t.pc.outcome ==
                   (if waitTerm then
                      if t.written <= 1 then Died(1)
                      else if t.written <= 3 then Returned(250)
                      else if t.written == 4 then Returned(ToInt(left.status))
                      else Returned(status)
                    else if t.written == 0 then Died(1) else Returned(0))
                && (!t.killed ==> t.written == |script|)
  {
    hide ReceiveApplicationData, PrintRequest, Listen, FullReply, CanExchange, ExchangeAll, OutcomeOf;
    var start := Launching(r, waitTerm, script, left);
    ReasonsStay(r, start, c, ms);
    if ExchangeAll(start, c, ms).talk.pc != Finished(Broken) && Over(ExchangeAll(start, c, ms).talk) {
      UnbrokenIsTalk(start, c, ms);
      OutcomeByWordsWritten(start.talk, self, status, Talked(ms));
    }
  }

  lemma ReplyLength(waitTerm: bool, self: word, status: int)
    ensures |FullReply(waitTerm, self, status)| == if waitTerm then 5 else 1
  {
  }
}
