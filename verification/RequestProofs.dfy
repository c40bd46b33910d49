/**
 What parsing a printed request gives: exactly the request, or a refusal, and never a part of it.
*/
module RequestProofs {
  import opened Protocol
  import opened Request

  // ---------- Why the action loop cannot fall back into step ----------

  /** Every action word has a zero byte, so no four bytes of a C string make one. */
  lemma TextIsNoAction(input: seq<Octet>)
    requires |input| >= 4 && forall i | 0 <= i < 4 :: input[i].val != 0
    ensures !IsAction(RecvWord(input).0) && RecvWord(input).0 != MSG_END
  {
    var os := input[..4];
    LowDigits(os[0].val, os[1].val, os[2].val, os[3].val);
    hide IsAction;
    NoActionHasTwoLowDigits(WordOf(os));
  }

  lemma NoActionHasTwoLowDigits(w: word)
    requires w % 0x100 != 0 && (w / 0x100) % 0x100 != 0
    ensures !IsAction(w) && w != MSG_END
  {
    assert MSG_EXEC % 0x100 == MSG_ARGS % 0x100 == MSG_ENV % 0x100 == MSG_PRIO % 0x100 == 0;
    assert MSG_IDS % 0x100 == MSG_IO % 0x100 == MSG_END % 0x100 == 0;
    assert MSG_DELAY / 0x100 == 0xb2_de00;
    assert 0xb2_de00 % 0x100 == 0;
  }

  lemma LowDigits(a: byte, b: byte, c: byte, d: byte)
    requires a != 0 && b != 0
    ensures var w := a + 0x100 * b + 0x1_0000 * c + 0x100_0000 * d;
            w % 0x100 != 0 && (w / 0x100) % 0x100 != 0
  {
    var w := a + 0x100 * b + 0x1_0000 * c + 0x100_0000 * d;
    assert w / 0x100 == b + 0x100 * c + 0x1_0000 * d;
  }

  /** Every action word is at least as large as MSG_IO, and no length word is that large. */
  lemma LengthIsNoAction(s: Str, rest: seq<Octet>)
    requires Sendable(s)
    ensures !IsAction(RecvWord(PrintStr(s) + rest).0) && RecvWord(PrintStr(s) + rest).0 != MSG_END
    ensures |PrintStr(s) + rest| > 4
  {
    hide WordOf, PrintWord;
    assert PrintStr(s) + rest == PrintWord(|s| + 1) + (Bytes(s) + [Raw(0)] + rest);
    WordRoundTrip(|s| + 1, Bytes(s) + [Raw(0)] + rest);
  }

  lemma LongStrIsNoAction(input: seq<Octet>)
    requires InsideLongStr(input)
    ensures !IsAction(RecvWord(input).0) && RecvWord(input).0 != MSG_END && |input| > 4
  {
    var s: Str, tail :| Sendable(s) && !Receivable(s) && input == Bytes(s) + tail;
    forall i | 0 <= i < 4 ensures input[i].val != 0 {
      assert input[i] == Raw(s[i]) && s[i] in s;
    }
    TextIsNoAction(input);
  }

  // ---------- One block ----------

  /** The block can be received as it was meant. */
  predicate Fits(b: Block) {
    match b
    case Exec(file) => Receivable(file)
    case Args(argv) => |argv| < ARG_MAX && AllReceivable(argv)
    case Env(entries) => |entries| < MAX_VARS && AllReceivable(entries)
    case _ => true
  }

  /** The block is one an invoker can send. */
  predicate Proper(b: Block) {
    match b
    case Exec(file) => Sendable(file)
    case Args(argv) => 1 <= |argv| < 0x8000_0000 && AllSendable(argv)
    case Env(entries) => |entries| < 0x8000_0000 && AllSendable(entries)
    case IO(_, fds) => |fds| == 3
    case _ => true
  }

  /** What the block means to the receiver. */
  function Apply(c: Conn, b: Block): Conn {
    match b
    case Exec(file) => c.(fileName := file)
    case Args(argv) => c.(argc := ToWord(|argv|), argv := argv)
    case Env(entries) => c.(env := PutAll(map[], entries))
    case Prio(prio) => c.(priority := prio)
    case Delay(delay) => c.(delay := delay)
    case IDs(uid, gid) => c.(uid := uid, gid := gid)
    case IO(_, fds) => c.(io := fds)
  }

  lemma CountReads(ss: seq<Str>, rest: seq<Octet>)
    requires |ss| < 0x8000_0000
    ensures RecvWord(PrintWord(ToWord(|ss|)) + PrintStrs(ss) + rest) == (|ss|, PrintStrs(ss) + rest)
  {
    hide WordOf, PrintWord, RecvWord, PrintStrs;
    ConcatAssoc(PrintWord(|ss|), PrintStrs(ss), rest);
    WordRoundTrip(|ss|, PrintStrs(ss) + rest);
  }

  lemma ArgsRoundTrip(c: Conn, argv: seq<Str>, rest: seq<Octet>)
    requires Proper(Args(argv)) && Fits(Args(argv))
    ensures ReceiveArgs(c.(input := Body(Args(argv)) + rest)) == c.(input := rest, argc := |argv|, argv := argv)
  {
    hide WordOf, PrintWord, RecvWord, RecvStrs, PrintStrs;
    CountReads(argv, rest);
    StrsRoundTrip(argv, rest);
  }

  lemma NothingToPrint(ss: seq<Str>, rest: seq<Octet>)
    ensures ss == [] ==> PrintStrs(ss) + rest == rest && PutAll(map[], ss) == map[]
  {
  }

  lemma EnvRoundTrip(c: Conn, entries: seq<Str>, rest: seq<Octet>)
    requires Proper(Env(entries)) && Fits(Env(entries))
    ensures ReceiveEnv(c.(input := Body(Env(entries)) + rest)) == c.(input := rest, env := PutAll(map[], entries))
  {
    hide WordOf, PrintWord, RecvWord, RecvStrs, PrintStrs;
    CountReads(entries, rest);
    StrsRoundTrip(entries, rest);
    NothingToPrint(entries, rest);
  }

  lemma ExecRoundTrip(c: Conn, file: Str, rest: seq<Octet>)
    requires Proper(Exec(file)) && Fits(Exec(file))
    ensures ReceiveExec(c.(input := Body(Exec(file)) + rest)) == c.(input := rest, fileName := file)
  {
    hide WordOf, PrintWord, RecvStr, PrintStr;
    StrRoundTrip(file, rest);
  }

  lemma NumberRoundTrip(c: Conn, w: word, rest: seq<Octet>)
    ensures ReceivePriority(c.(input := Body(Prio(w)) + rest)) == c.(input := rest, priority := w)
    ensures ReceiveDelay(c.(input := Body(Delay(w)) + rest)) == c.(input := rest, delay := w)
  {
    hide WordOf, PrintWord, RecvWord;
    WordRoundTrip(w, rest);
  }

  lemma IDsRoundTrip(c: Conn, uid: word, gid: word, rest: seq<Octet>)
    ensures ReceiveIDs(c.(input := Body(IDs(uid, gid)) + rest)) == c.(input := rest, uid := uid, gid := gid)
  {
    hide WordOf, PrintWord, RecvWord;
    ConcatAssoc(PrintWord(uid), PrintWord(gid), rest);
    WordRoundTrip(uid, PrintWord(gid) + rest);
    WordRoundTrip(gid, rest);
  }

  lemma IORoundTrip(c: Conn, dummy: byte, fds: seq<int>, rest: seq<Octet>)
    requires |fds| == 3
    ensures ReceiveIO(c.(input := Body(IO(dummy, fds)) + rest)) == c.(input := rest, io := fds)
  {
    var input := Body(IO(dummy, fds)) + rest;
    assert input[0] == Octet(dummy, Some(fds)) && input[1..] == rest;
  }

  lemma BodyRoundTrip(c: Conn, b: Block, rest: seq<Octet>)
    requires Proper(b) && Fits(b)
    ensures Handle(c.(input := Body(b) + rest), Tag(b)) == Apply(c, b).(input := rest)
  {
    hide Body, ReceiveExec, ReceiveArgs, ReceiveEnv, ReceivePriority, ReceiveDelay, ReceiveIDs, ReceiveIO, PutAll;
    match b
    case Exec(file) => ExecRoundTrip(c, file, rest);
    case Args(argv) => ArgsRoundTrip(c, argv, rest);
    case Env(entries) => EnvRoundTrip(c, entries, rest);
    case Prio(prio) => NumberRoundTrip(c, prio, rest);
    case Delay(delay) => NumberRoundTrip(c, delay, rest);
    case IDs(uid, gid) => IDsRoundTrip(c, uid, gid, rest);
    case IO(dummy, fds) => IORoundTrip(c, dummy, fds, rest);
  }

  lemma FittingBlockIsApplied(c: Conn, b: Block, rest: seq<Octet>)
    requires Proper(b) && Fits(b)
    ensures Actions(c.(input := PrintBlock(b) + rest)) == Actions(Apply(c, b).(input := rest))
  {
    hide WordOf, PrintWord, RecvWord, Body, Handle;
    assert PrintBlock(b) + rest == PrintWord(Tag(b)) + (Body(b) + rest);
    WordRoundTrip(Tag(b), Body(b) + rest);
    BodyRoundTrip(c, b, rest);
  }

  /** After a counted list that cannot be received, the next word is no action. */
  lemma CountedListStopsLoop(ss: seq<Str>, limit: nat, rest: seq<Octet>)
    requires AllSendable(ss) && 1 <= |ss| && !(|ss| < limit && AllReceivable(ss))
    ensures var list := PrintStrs(ss) + rest;
            var after := if |ss| < limit then RecvStrs(list, |ss|).2 else list;
            !IsAction(RecvWord(after).0) && RecvWord(after).0 != MSG_END && |after| > 4
  {
    var list := PrintStrs(ss) + rest;
    if |ss| < limit {
      LongStrStopsReader(ss, rest);
      LongStrIsNoAction(RecvStrs(list, |ss|).2);
    } else {
      ConcatAssoc(PrintStr(ss[0]), PrintStrs(ss[1..]), rest);
      LengthIsNoAction(ss[0], PrintStrs(ss[1..]) + rest);
    }
  }

  lemma OversizeExecStopsLoop(c: Conn, file: Str, rest: seq<Octet>)
    requires Proper(Exec(file)) && !Fits(Exec(file))
    ensures var after := ReceiveExec(c.(input := Body(Exec(file)) + rest)).input;
            !IsAction(RecvWord(after).0) && RecvWord(after).0 != MSG_END && |after| > 4
  {
    hide WordOf, PrintWord, RecvWord, RecvStr, PrintStr;
    StrRoundTrip(file, rest);
    assert Bytes(file) + [Raw(0)] + rest == Bytes(file) + ([Raw(0)] + rest);
    LongStrIsNoAction(Bytes(file) + [Raw(0)] + rest);
  }

  lemma OversizeArgsStopsLoop(c: Conn, argv: seq<Str>, rest: seq<Octet>)
    requires Proper(Args(argv)) && !Fits(Args(argv))
    ensures var after := ReceiveArgs(c.(input := Body(Args(argv)) + rest)).input;
            !IsAction(RecvWord(after).0) && RecvWord(after).0 != MSG_END && |after| > 4
  {
    hide WordOf, PrintWord, RecvWord, RecvStrs, PrintStrs;
    CountReads(argv, rest);
    CountedListStopsLoop(argv, ARG_MAX, rest);
  }

  lemma OversizeEnvStopsLoop(c: Conn, entries: seq<Str>, rest: seq<Octet>)
    requires Proper(Env(entries)) && !Fits(Env(entries))
    ensures var after := ReceiveEnv(c.(input := Body(Env(entries)) + rest)).input;
            !IsAction(RecvWord(after).0) && RecvWord(after).0 != MSG_END && |after| > 4
  {
    hide WordOf, PrintWord, RecvWord, RecvStrs, PrintStrs, PutAll;
    CountReads(entries, rest);
    CountedListStopsLoop(entries, MAX_VARS, rest);
  }

  /** The handler of a block that does not fit leaves the stream where no action can be read. */
  lemma OversizeBodyStopsLoop(c: Conn, b: Block, rest: seq<Octet>)
    requires Proper(b) && !Fits(b)
    ensures var after := Handle(c.(input := Body(b) + rest), Tag(b)).input;
            !IsAction(RecvWord(after).0) && RecvWord(after).0 != MSG_END && |after| > 4
  {
    hide Body, RecvWord, ReceiveExec, ReceiveArgs, ReceiveEnv;
    if b.Exec? {
      OversizeExecStopsLoop(c, b.file, rest);
    } else if b.Args? {
      OversizeArgsStopsLoop(c, b.argv, rest);
    } else {
      OversizeEnvStopsLoop(c, b.entries, rest);
    }
  }

  lemma OversizeBlockIsRejected(c: Conn, b: Block, rest: seq<Octet>)
    requires Proper(b) && !Fits(b)
    ensures var v := Actions(c.(input := PrintBlock(b) + rest));
            v.Rejected? && v.c.input != []
  {
    hide WordOf, PrintWord, RecvWord, Body, Handle;
    assert PrintBlock(b) + rest == PrintWord(Tag(b)) + (Body(b) + rest);
    WordRoundTrip(Tag(b), Body(b) + rest);
    OversizeBodyStopsLoop(c, b, rest);
    StopLeavesBytes(Handle(c.(input := Body(b) + rest), Tag(b)));
  }

  lemma StopLeavesBytes(c: Conn)
    requires |c.input| > 4 && !IsAction(RecvWord(c.input).0) && RecvWord(c.input).0 != MSG_END
    ensures Actions(c).Rejected? && Actions(c).c.input != []
  {
  }

  // ---------- A list of blocks ----------

  function ApplyAll(c: Conn, bs: seq<Block>): Conn
    decreases |bs|
  {
    if bs == [] then c else ApplyAll(Apply(c, bs[0]), bs[1..])
  }

  lemma {:induction false} ApplyAllFrame(c: Conn, bs: seq<Block>, input: seq<Octet>)
    ensures ApplyAll(c, bs).(input := input) == ApplyAll(c.(input := input), bs).(input := input)
    ensures var d := ApplyAll(c, bs);
            d.input == c.input && d.sent == c.sent && d.sendPid == c.sendPid && d.self == c.self
    decreases |bs|
  {
    if bs != [] {
      ApplyAllFrame(Apply(c, bs[0]), bs[1..], input);
    }
  }

  predicate AllFit(bs: seq<Block>) {
    forall i | 0 <= i < |bs| :: Fits(bs[i])
  }

  predicate AllProper(bs: seq<Block>) {
    forall i | 0 <= i < |bs| :: Proper(bs[i])
  }

  /** Any list of blocks that all fit, closed by END, is applied block by block and acknowledged;
      a list with a block that does not fit is rejected and nothing is sent back. */
  lemma {:induction false} BlocksAllOrNothing(c: Conn, bs: seq<Block>, rest: seq<Octet>)
    requires AllProper(bs)
    ensures var v := Actions(c.(input := PrintBlocks(bs) + PrintWord(MSG_END) + rest));
            if AllFit(bs) then v == Accepted(Acknowledge(ApplyAll(c, bs).(input := rest)))
            else v.Rejected? && v.c.input != []
    decreases |bs|
  {
    hide PrintWord, WordOf, RecvWord, PrintBlock, Fits, Proper, Apply, Handle;
    if bs == [] {
      assert PrintBlocks(bs) + PrintWord(MSG_END) + rest == PrintWord(MSG_END) + rest;
      WordRoundTrip(MSG_END, rest);
    } else {
      hide Actions, PrintBlocks;
      var more := PrintBlocks(bs[1..]) + PrintWord(MSG_END) + rest;
      PrintBlocksSplit(bs, PrintWord(MSG_END), rest);
      if Fits(bs[0]) {
        FittingBlockIsApplied(c, bs[0], more);
        BlocksAllOrNothing(Apply(c, bs[0]), bs[1..], rest);
        assert AllFit(bs) <==> AllFit(bs[1..]);
      } else {
        OversizeBlockIsRejected(c, bs[0], more);
      }
    }
  }

  lemma PrintBlocksSplit(bs: seq<Block>, closing: seq<Octet>, rest: seq<Octet>)
    requires bs != []
    ensures PrintBlocks(bs) + closing + rest == PrintBlock(bs[0]) + (PrintBlocks(bs[1..]) + closing + rest)
  {
    hide PrintBlock;
    var first, others := PrintBlock(bs[0]), PrintBlocks(bs[1..]);
    assert PrintBlocks(bs) == first + others;
    hide PrintBlocks;
    ConcatAssoc(first, others, closing);
    ConcatAssoc(first, others + closing, rest);
  }

  // ---------- The whole request ----------

  /** The limits the receiver sets. */
  predicate WithinLimits(r: LaunchRequest) {
    && |r.argv| < ARG_MAX && |r.env| < MAX_VARS
    && Receivable(r.exec) && AllReceivable(r.argv) && AllReceivable(r.env)
  }

  /** The application the invoker asked for. */
  function AppAsked(r: LaunchRequest): App
    requires Sent(r)
  {
    App(r.options, r.argv[0], r.exec, r.prio, ToInt(r.respawnDelay), |r.argv|, r.argv, r.fds, r.uid, r.gid)
  }

  lemma MagicRoundTrip(c: Conn, options: word, rest: seq<Octet>)
    requires options < 0x100
    ensures ReceiveMagic(c.(input := PrintWord(MSG_MAGIC + MSG_MAGIC_VERSION + options) + rest))
            == (options, c.(input := rest, sendPid := HasBit(options, OPTION_WAIT)))
  {
    WordRoundTrip(MSG_MAGIC + MSG_MAGIC_VERSION + options, rest);
  }

  lemma NameRoundTrip(c: Conn, name: Str, rest: seq<Octet>)
    requires Sendable(name)
    ensures var r := ReceiveAppName(c.(input := PrintWord(MSG_NAME) + (PrintStr(name) + rest)));
            if Receivable(name) then r == (name, c.(input := rest)) else r.0 == [] && r.1.input != []
  {
    WordRoundTrip(MSG_NAME, PrintStr(name) + rest);
    StrRoundTrip(name, rest);
  }

  /** The magic word and the name of a printed request are read as sent, up to the blocks. */
  lemma PrologueRead(r: LaunchRequest, c: Conn)
    requires Sent(r) && c.input == PrintRequest(r)
    ensures var blocks := PrintBlocks(BlocksOf(r)) + PrintWord(MSG_END);
            var c1 := c.(input := blocks, sendPid := HasBit(r.options, OPTION_WAIT));
            ReceiveApplicationData(c) ==
              if Receivable(r.argv[0]) && r.argv[0] != [] then
                match Actions(c1)
                case Accepted(d) => Launch(AppOf(r.options, r.argv[0], d), d)
                case Rejected(d) => Refuse(d)
              else Refuse(ReceiveAppName(ReceiveMagic(c).1).1)
    ensures ReceiveAppName(ReceiveMagic(c).1).1.input != []
  {
    hide WordOf, PrintWord, RecvWord, RecvStr, PrintStr, PrintBlocks, BlocksOf, Actions, Bytes;
    var blocks := PrintBlocks(BlocksOf(r)) + PrintWord(MSG_END);
    MagicRoundTrip(c, r.options, PrintWord(MSG_NAME) + (PrintStr(r.argv[0]) + blocks));
    NameRoundTrip(c.(sendPid := HasBit(r.options, OPTION_WAIT)), r.argv[0], blocks);
  }

  /** All or nothing: a printed request is decoded to exactly what was asked, with exactly the
      environment that was sent, and acknowledged; or it is refused and not acknowledged, before the
      request is read to its end. Which of the two happens depends only on the limits and on the name
      not being empty. */
  lemma DecodeTheorem(r: LaunchRequest, c: Conn)
    requires Sent(r) && c.input == PrintRequest(r)
    ensures var d := ReceiveApplicationData(c);
            if WithinLimits(r) && r.argv[0] != [] then
              && d.Launch? && d.app == AppAsked(r) && d.c.input == []
              && d.c.env == PutAll(map[], r.env)
              && d.c.sendPid == HasBit(r.options, OPTION_WAIT)
              && d.c.sent == c.sent + [MSG_ACK] + (if HasBit(r.options, OPTION_WAIT) then [MSG_PID, c.self] else [])
            else d.Refuse? && d.c.sent == c.sent && d.c.input != []
  {
    hide WordOf, PrintWord, PrintBlocks, PrintRequest, BlocksOf, Actions, ApplyAll, PutAll, ReceiveApplicationData;
    PrologueRead(r, c);
    BlocksFit(r);
    var c1 := c.(input := [], sendPid := HasBit(r.options, OPTION_WAIT));
    BlocksAllOrNothing(c1, BlocksOf(r), []);
    assert PrintBlocks(BlocksOf(r)) + PrintWord(MSG_END) + [] == PrintBlocks(BlocksOf(r)) + PrintWord(MSG_END);
    if WithinLimits(r) && r.argv[0] != [] {
      BlocksApplied(r, c1);
      IntRoundTrip(r.prio);
    }
  }

  /** The same in full: which requests are accepted, each field of the application, and the words sent
      back; and then the environment, byte for byte. */
  lemma DecodedInFull(r: LaunchRequest, c: Conn)
    requires Sent(r) && c.input == PrintRequest(r)
    ensures var d := ReceiveApplicationData(c);
            && (d.Launch? <==>
                  && 0 < |r.argv[0]| && |r.argv| <= 1023 && |r.env| <= 1023 && |r.exec| <= 4095
                  && (forall i | 0 <= i < |r.argv| :: |r.argv[i]| <= 4095)
                  && (forall i | 0 <= i < |r.env| :: |r.env[i]| <= 4095))
            && (d.Launch? ==>
                  && d.app.options == r.options && d.app.appName == r.argv[0] && d.app.fileName == r.exec
                  && d.app.priority == r.prio && d.app.delay == ToInt(r.respawnDelay)
                  && d.app.argc == |r.argv| && d.app.argv == r.argv && d.app.io == r.fds
                  && d.app.uid == r.uid && d.app.gid == r.gid
                  && d.c.input == []
                  && d.c.sent == c.sent + [0x600d_0000] + (if r.options % 2 == 1 then [0x1d1d_0000, c.self] else []))
            && (d.Refuse? ==> d.c.sent == c.sent)
  {
    LimitsInNumbers(r);
    WaitBit(r.options);
    hide ReceiveApplicationData, PrintRequest, PutAll, WithinLimits, HasBit;
    DecodeTheorem(r, c);
  }

  lemma WaitBit(w: word)
    ensures HasBit(w, OPTION_WAIT) <==> w % 2 == 1
  {
  }

  lemma DecodedEnvironment(r: LaunchRequest, c: Conn)
    requires Sent(r) && c.input == PrintRequest(r)
    ensures var d := ReceiveApplicationData(c);
            d.Launch? ==> HoldsExactly(d.c.env, r.env)
  {
    hide ReceiveApplicationData, PrintRequest, PutAll, WithinLimits, HasBit, HoldsExactly;
    DecodeTheorem(r, c);
    EnvironmentMeaning(r.env);
  }

  lemma LimitsInNumbers(r: LaunchRequest)
    ensures WithinLimits(r) <==>
              && |r.argv| <= 1023 && |r.env| <= 1023 && |r.exec| <= 4095
              && (forall i | 0 <= i < |r.argv| :: |r.argv[i]| <= 4095)
              && (forall i | 0 <= i < |r.env| :: |r.env[i]| <= 4095)
  {
  }

  lemma BlocksFit(r: LaunchRequest)
    requires Sent(r)
    ensures AllProper(BlocksOf(r))
    ensures AllFit(BlocksOf(r)) <==> WithinLimits(r)
    ensures WithinLimits(r) ==> Receivable(r.argv[0])
  {
    var bs := BlocksOf(r);
    assert Fits(bs[0]) <==> Receivable(r.exec);
    assert Fits(bs[1]) <==> |r.argv| < ARG_MAX && AllReceivable(r.argv);
    assert Fits(bs[6]) <==> |r.env| < MAX_VARS && AllReceivable(r.env);
  }

  lemma BlocksApplied(r: LaunchRequest, c: Conn)
    requires Sent(r)
    ensures ApplyAll(c, BlocksOf(r)) ==
      c.(fileName := r.exec, argc := ToWord(|r.argv|), argv := r.argv,
         priority := ToWord(r.prio), delay := r.respawnDelay,
         uid := r.uid, gid := r.gid, io := r.fds, env := PutAll(map[], r.env))
  {
    var bs := BlocksOf(r);
    var c1 := Apply(c, bs[0]);
    var c2 := Apply(c1, bs[1]);
    var c3 := Apply(c2, bs[2]);
    var c4 := Apply(c3, bs[3]);
    var c5 := Apply(c4, bs[4]);
    var c6 := Apply(c5, bs[5]);
    var c7 := Apply(c6, bs[6]);
    assert ApplyAll(c7, bs[7..]) == c7;
    assert bs[6..][1..] == bs[7..] && bs[5..][1..] == bs[6..] && bs[4..][1..] == bs[5..];
    assert bs[3..][1..] == bs[4..] && bs[2..][1..] == bs[3..] && bs[1..][1..] == bs[2..];
    assert ApplyAll(c6, bs[6..]) == c7;
    assert ApplyAll(c5, bs[5..]) == c7;
    assert ApplyAll(c4, bs[4..]) == c7;
    assert ApplyAll(c3, bs[3..]) == c7;
    assert ApplyAll(c2, bs[2..]) == c7;
    assert ApplyAll(c1, bs[1..]) == c7;
  }

  // ---------- What travels, and what any stream gives ----------

  /** The blocks in numbers. */
  lemma ListOnTheWire(ss: seq<Str>)
    requires |ss| < 0x8000_0000
    ensures PrintBlock(Args(ss)) == PrintWord(0xa465_0000) + (PrintWord(|ss|) + PrintStrs(ss))
    ensures PrintBlock(Env(ss)) == PrintWord(0xe571_0000) + (PrintWord(|ss|) + PrintStrs(ss))
  {
    hide PrintWord, PrintStrs, ToWord;
    SmallWord(|ss|);
  }

  lemma SmallWord(n: nat)
    requires n < 0x8000_0000
    ensures ToWord(n) == n
  {
  }

  lemma FileOnTheWire(file: Str)
    ensures PrintBlock(Exec(file)) == PrintWord(0xe8ec_0000) + PrintStr(file)
  {
    hide PrintWord, PrintStr;
  }

  lemma NumbersOnTheWire(w: word, v: word, dummy: byte, fds: seq<int>)
    ensures PrintBlock(Prio(w)) == PrintWord(0xa1ce_0000) + PrintWord(w)
    ensures PrintBlock(Delay(w)) == PrintWord(0xb2de_0012) + PrintWord(w)
    ensures PrintBlock(IDs(w, v)) == PrintWord(0xb2df_4000) + (PrintWord(w) + PrintWord(v))
    ensures PrintBlock(IO(dummy, fds)) == PrintWord(0x10fd_0000) + [Octet(dummy, Some(fds))]
  {
    hide PrintWord;
  }

  /** The frame of a request in numbers, and the order of its blocks. */
  lemma RequestOnTheWire(r: LaunchRequest)
    requires Sent(r)
    ensures var prio := if r.prio >= 0 then r.prio else r.prio + 0x1_0000_0000;
            var blocks := [Exec(r.exec), Args(r.argv), Prio(prio), Delay(r.respawnDelay), IDs(r.uid, r.gid),
                           IO(r.dummy, r.fds), Env(r.env)];
            PrintRequest(r) ==
              PrintWord(0xb007_0300 + r.options)
              + (PrintWord(0x5a5e_0000) + (PrintStr(r.argv[0]) + (PrintBlocks(blocks) + PrintWord(0xdead_0000))))
  {
    IntRoundTrip(r.prio);
    hide PrintWord, PrintStr, PrintBlocks;
  }

  /** No first word is refused, whatever magic or version it has: its low byte is the options, and its
      lowest bit says that the invoker waits. */
  lemma AnyMagic(c: Conn, magic: word, more: seq<Octet>)
    ensures ReceiveMagic(c.(input := PrintWord(magic) + more))
            == (magic % 0x100, c.(input := more, sendPid := magic % 2 == 1))
  {
    hide PrintWord, WordOf, RecvWord;
    WordRoundTrip(magic, more);
  }

  /** After it a stream is refused unless the name's word comes next, and then a name that is not empty. */
  lemma AnyName(c: Conn, magic: word, tag: word, more: seq<Octet>)
    ensures var name := RecvStr(more).0;
            ReceiveApplicationData(c.(input := PrintWord(magic) + (PrintWord(tag) + more))).Launch? ==>
              tag == 0x5a5e_0000 && name.Some? && name.value != []
  {
    hide PrintWord, WordOf, RecvWord, RecvStr, Actions;
    AnyMagic(c, magic, PrintWord(tag) + more);
    WordRoundTrip(tag, more);
    hide ReceiveMagic;
  }

  /** The action loop goes on with exactly seven words; one other ends it with success. */
  lemma AnyAction(c: Conn, action: word, more: seq<Octet>)
    ensures var v := Actions(c.(input := PrintWord(action) + more));
            var c1 := c.(input := more);
            if action == 0xdead_0000 then
              v == Accepted(c1.(sent := c.sent + [0x600d_0000] + (if c.sendPid then [0x1d1d_0000, c.self] else [])))
            else if action == 0xe8ec_0000 then v == Actions(ReceiveExec(c1))
            else if action == 0xa465_0000 then v == Actions(ReceiveArgs(c1))
            else if action == 0xe571_0000 then v == Actions(ReceiveEnv(c1))
            else if action == 0xa1ce_0000 then v == Actions(ReceivePriority(c1))
            else if action == 0xb2de_0012 then v == Actions(ReceiveDelay(c1))
            else if action == 0x10fd_0000 then v == Actions(ReceiveIO(c1))
            else if action == 0xb2df_4000 then v == Actions(ReceiveIDs(c1))
            else v == Rejected(c1)
  {
    hide PrintWord, WordOf, RecvWord, ReceiveExec, ReceiveArgs, ReceiveEnv, ReceivePriority, ReceiveDelay;
    hide ReceiveIO, ReceiveIDs;
    WordRoundTrip(action, more);
  }

  /** A count of 0, or of 1024 and more, is all that is read of a list; the environment is cleared even
      so. */
  lemma AnyBadCount(c: Conn, n: word, more: seq<Octet>)
    requires n == 0 || n >= 1024
    ensures ReceiveArgs(c.(input := PrintWord(n) + more)) == c.(input := more, argc := n)
    ensures ReceiveEnv(c.(input := PrintWord(n) + more)) == c.(input := more, env := map[])
  {
    hide PrintWord, WordOf, RecvWord, RecvStrs;
    WordRoundTrip(n, more);
  }

  /** Descriptors are taken only when exactly three come with the byte; the byte is taken in any case. */
  lemma AnyDescriptors(c: Conn, octet: Octet, more: seq<Octet>)
    ensures var d := ReceiveIO(c.(input := [octet] + more));
            && d == c.(input := more, io := d.io)
            && (octet.fds.Some? && |octet.fds.value| == 3 ==> d.io == octet.fds.value)
            && (octet.fds.None? || |octet.fds.value| != 3 ==> d.io == c.io)
  {
  }

  // ---------- Cut streams ----------

  /** Appending to the stream changes nothing about a read that was not short. */
  lemma StrExtends(input: seq<Octet>, more: seq<Octet>)
    ensures var r := RecvStr(input);
            r.1 == [] || RecvStr(input + more) == (r.0, r.1 + more)
  {
    hide WordOf;
    WordExtends(input, more);
    var (size, rest) := RecvWord(input);
    if |input| >= 4 && 0 < size <= STR_LEN_MAX && |rest| >= size {
      assert (rest + more)[..size - 1] == rest[..size - 1];
      assert (rest + more)[size..] == rest[size..] + more;
    }
  }

  lemma WordExtends(input: seq<Octet>, more: seq<Octet>)
    ensures |input| >= 4 ==> RecvWord(input + more) == (RecvWord(input).0, RecvWord(input).1 + more)
    ensures |input| < 4 ==> RecvWord(input) == (0, [])
  {
    if |input| >= 4 {
      assert (input + more)[..4] == input[..4] && (input + more)[4..] == input[4..] + more;
    }
  }

  lemma {:induction false} StrsExtend(input: seq<Octet>, n: nat, more: seq<Octet>)
    ensures var r := RecvStrs(input, n);
            r.2 == [] || RecvStrs(input + more, n) == (r.0, r.1, r.2 + more)
    decreases n
  {
    hide RecvStr, WordOf, RecvWord;
    if n != 0 {
      StrExtends(input, more);
      StrsExtend(RecvStr(input).1, n - 1, more);
      if RecvStr(input).1 == [] && RecvStr(input).0.Some? {
        assert |RecvStrs(RecvStr(input).1, n - 1).2| == 0;
      }
    }
  }

  lemma HandleExtends(c: Conn, action: word, more: seq<Octet>)
    requires IsAction(action)
    ensures var d := Handle(c, action);
            d.input == [] || Handle(c.(input := c.input + more), action) == d.(input := d.input + more)
  {
    hide WordOf, RecvStr, RecvStrs;
    StrExtends(c.input, more);
    WordExtends(c.input, more);
    var (n, rest) := RecvWord(c.input);
    WordExtends(rest, more);
    StrsExtend(rest, n, more);
    if c.input != [] {
      assert (c.input + more)[0] == c.input[0] && (c.input + more)[1..] == c.input[1..] + more;
    }
  }

  /** A stream that is accepted is accepted just the same when more bytes follow. */
  lemma {:induction false} ActionsExtend(c: Conn, more: seq<Octet>)
    requires Actions(c).Accepted?
    ensures var d := Actions(c).c;
            Actions(c.(input := c.input + more)) == Accepted(d.(input := d.input + more))
    decreases |c.input|
  {
    WordExtends(c.input, more);
    var (action, rest) := RecvWord(c.input);
    if action != MSG_END {
      var c1 := c.(input := rest);
      HandleExtends(c1, action, more);
      assert Handle(c1, action).input != [];
      ActionsExtend(Handle(c1, action), more);
    }
  }

  lemma ReceptionExtends(c: Conn, more: seq<Octet>)
    ensures var d := ReceiveApplicationData(c);
            d.Launch? ==>
              ReceiveApplicationData(c.(input := c.input + more)) == Launch(d.app, d.c.(input := d.c.input + more))
  {
    if ReceiveApplicationData(c).Launch? {
      var (options, c1) := ReceiveMagic(c);
      var (name, c2) := ReceiveAppName(c1);
      assert c2.input != [];
      WordExtends(c.input, more);
      WordExtends(c1.input, more);
      StrExtends(RecvWord(c1.input).1, more);
      ActionsExtend(c2, more);
    }
  }

  /** A stream that is rejected with bytes to spare is rejected just the same when more follow. */
  lemma {:induction false} RejectionExtends(c: Conn, more: seq<Octet>)
    requires Actions(c).Rejected? && Actions(c).c.input != []
    ensures var d := Actions(c).c;
            Actions(c.(input := c.input + more)) == Rejected(d.(input := d.input + more))
    decreases |c.input|
  {
    WordExtends(c.input, more);
    var (action, rest) := RecvWord(c.input);
    if IsAction(action) {
      var c1 := c.(input := rest);
      HandleExtends(c1, action, more);
      assert Handle(c1, action).input != [];
      RejectionExtends(Handle(c1, action), more);
    }
  }

  /** The verdict on a stream after which more bytes are found. */
  function Later(d: Reception, more: seq<Octet>): Reception {
    match d
    case Launch(app, c) => Launch(app, c.(input := c.input + more))
    case Refuse(c) => Refuse(c.(input := c.input + more))
  }

  lemma RefusalExtends(c: Conn, more: seq<Octet>)
    ensures var d := ReceiveApplicationData(c);
            d.Refuse? && d.c.input != [] ==> ReceiveApplicationData(c.(input := c.input + more)) == Later(d, more)
  {
    var d := ReceiveApplicationData(c);
    if d.Refuse? && d.c.input != [] {
      var (options, c1) := ReceiveMagic(c);
      var (name, c2) := ReceiveAppName(c1);
      WordExtends(c.input, more);
      assert c1.input != [];
      WordExtends(c1.input, more);
      StrExtends(RecvWord(c1.input).1, more);
      if ToInt(options) != -1 && name != [] {
        assert c2.input != [];
        RejectionExtends(c2, more);
      }
    }
  }

  /** The whole request is enough for the booster to decide: bytes that follow it, or their absence,
      change nothing, whether it is accepted or refused. */
  lemma VerdictNeedsNoMore(r: LaunchRequest, c: Conn, more: seq<Octet>)
    requires Sent(r)
    ensures ReceiveApplicationData(c.(input := PrintRequest(r) + more))
         == Later(ReceiveApplicationData(c.(input := PrintRequest(r))), more)
  {
    hide PrintRequest, ReceiveApplicationData, PutAll, WithinLimits;
    var c1 := c.(input := PrintRequest(r));
    DecodeTheorem(r, c1);
    if ReceiveApplicationData(c1).Launch? {
      ReceptionExtends(c1, more);
    } else {
      RefusalExtends(c1, more);
    }
  }

  /** Wherever a printed request is cut, what arrives is refused and nothing is acknowledged. */
  lemma CutRequestIsRefused(r: LaunchRequest, c: Conn, n: nat)
    requires Sent(r) && n < |PrintRequest(r)| && c.input == PrintRequest(r)[..n]
    ensures ReceiveApplicationData(c).Refuse? && ReceiveApplicationData(c).c.sent == c.sent
  {
    hide PrintRequest, ReceiveApplicationData, WithinLimits, PutAll;
    var more := PrintRequest(r)[n..];
    assert c.input + more == PrintRequest(r);
    DecodeTheorem(r, c.(input := c.input + more));
    if ReceiveApplicationData(c).Launch? {
      ReceptionExtends(c, more);
      assert false;
    }
  }

  // ---------- The order of blocks ----------

  /** The last block with the given tag; None when there is none. */
  function LastOf(bs: seq<Block>, tag: word): Option<Block> {
    if bs == [] then None
    else if Tag(bs[|bs| - 1]) == tag then Some(bs[|bs| - 1])
    else LastOf(bs[..|bs| - 1], tag)
  }

  lemma {:induction false} ApplyAllSnoc(c: Conn, bs: seq<Block>)
    requires bs != []
    ensures ApplyAll(c, bs) == Apply(ApplyAll(c, bs[..|bs| - 1]), bs[|bs| - 1])
    decreases |bs|
  {
    var init := bs[..|bs| - 1];
    if |bs| > 1 {
      ApplyAllSnoc(Apply(c, bs[0]), bs[1..]);
      assert bs[1..][..|bs| - 2] == init[1..];
    }
  }

  /** The fields that blocks with this tag set are those of `last`, or as in `c` without one. */
  ghost predicate FieldsFrom(last: Option<Block>, tag: word, c: Conn, d: Conn) {
    match last
    case Some(b) =>
      && Tag(b) == tag
      && (b.Exec? ==> d.fileName == b.file)
      && (b.Args? ==> d.argc == ToWord(|b.argv|) && d.argv == b.argv)
      && (b.Env? ==> d.env == PutAll(map[], b.entries))
      && (b.Prio? ==> d.priority == b.prio)
      && (b.Delay? ==> d.delay == b.delay)
      && (b.IDs? ==> d.uid == b.uid && d.gid == b.gid)
      && (b.IO? ==> d.io == b.fds)
    case None =>
      && (tag == MSG_EXEC ==> d.fileName == c.fileName)
      && (tag == MSG_ARGS ==> d.argc == c.argc && d.argv == c.argv)
      && (tag == MSG_ENV ==> d.env == c.env)
      && (tag == MSG_PRIO ==> d.priority == c.priority)
      && (tag == MSG_DELAY ==> d.delay == c.delay)
      && (tag == MSG_IDS ==> d.uid == c.uid && d.gid == c.gid)
      && (tag == MSG_IO ==> d.io == c.io)
  }

  /** Each decoded field comes from the last block of its kind. */
  lemma {:induction false} FieldsComeFromLastBlocks(c: Conn, bs: seq<Block>, tag: word)
    ensures FieldsFrom(LastOf(bs, tag), tag, c, ApplyAll(c, bs))
    decreases |bs|
  {
    if bs != [] {
      var init, b := bs[..|bs| - 1], bs[|bs| - 1];
      ApplyAllSnoc(c, bs);
      FieldsComeFromLastBlocks(c, init, tag);
      OtherFieldsStay(ApplyAll(c, init), b, c, LastOf(init, tag), tag);
    }
  }

  lemma OtherFieldsStay(d: Conn, b: Block, c: Conn, last: Option<Block>, tag: word)
    requires FieldsFrom(last, tag, c, d)
    ensures FieldsFrom(if Tag(b) == tag then Some(b) else last, tag, c, Apply(d, b))
  {
  }

  predicate OneOfEach(bs: seq<Block>) {
    forall i, j | 0 <= i < j < |bs| :: Tag(bs[i]) != Tag(bs[j])
  }

  lemma {:induction false} LastOfDistinct(bs: seq<Block>, tag: word)
    requires OneOfEach(bs)
    ensures match LastOf(bs, tag)
            case Some(b) => b in bs && Tag(b) == tag
            case None => forall b | b in bs :: Tag(b) != tag
    ensures forall b | b in bs && Tag(b) == tag :: LastOf(bs, tag) == Some(b)
    decreases |bs|
  {
    if bs != [] {
      LastOfDistinct(bs[..|bs| - 1], tag);
      assert bs == bs[..|bs| - 1] + [bs[|bs| - 1]];
    }
  }

  ghost predicate SameFields(tag: word, d: Conn, e: Conn) {
    && (tag == MSG_EXEC ==> d.fileName == e.fileName)
    && (tag == MSG_ARGS ==> d.argc == e.argc && d.argv == e.argv)
    && (tag == MSG_ENV ==> d.env == e.env)
    && (tag == MSG_PRIO ==> d.priority == e.priority)
    && (tag == MSG_DELAY ==> d.delay == e.delay)
    && (tag == MSG_IDS ==> d.uid == e.uid && d.gid == e.gid)
    && (tag == MSG_IO ==> d.io == e.io)
  }

  lemma SameLastBlockSameFields(c: Conn, bs: seq<Block>, cs: seq<Block>, tag: word)
    requires LastOf(bs, tag) == LastOf(cs, tag)
    ensures SameFields(tag, ApplyAll(c, bs), ApplyAll(c, cs))
  {
    FieldsComeFromLastBlocks(c, bs, tag);
    FieldsComeFromLastBlocks(c, cs, tag);
  }

  lemma SameLastBlocksSameResult(c: Conn, bs: seq<Block>, cs: seq<Block>)
    requires forall tag: word :: LastOf(bs, tag) == LastOf(cs, tag)
    ensures ApplyAll(c, bs) == ApplyAll(c, cs)
  {
    forall tag: word ensures SameFields(tag, ApplyAll(c, bs), ApplyAll(c, cs)) {
      SameLastBlockSameFields(c, bs, cs, tag);
    }
    var d, e := ApplyAll(c, bs), ApplyAll(c, cs);
    assert SameFields(MSG_EXEC, d, e) && SameFields(MSG_ARGS, d, e) && SameFields(MSG_ENV, d, e);
    assert SameFields(MSG_PRIO, d, e);
    assert SameFields(MSG_DELAY, d, e) && SameFields(MSG_IDS, d, e) && SameFields(MSG_IO, d, e);
    ApplyAllFrame(c, bs, c.input);
    ApplyAllFrame(c, cs, c.input);
  }

  /** Blocks of different kinds may come in any order: every permutation is decoded alike. */
  lemma OrderIsIrrelevant(c: Conn, bs: seq<Block>, cs: seq<Block>, rest: seq<Octet>)
    requires OneOfEach(bs) && OneOfEach(cs) && multiset(bs) == multiset(cs)
    requires AllProper(bs) && AllFit(bs)
    ensures Actions(c.(input := PrintBlocks(bs) + PrintWord(MSG_END) + rest))
         == Actions(c.(input := PrintBlocks(cs) + PrintWord(MSG_END) + rest))
  {
    assert forall b :: b in bs <==> b in multiset(bs);
    assert forall b :: b in cs <==> b in multiset(cs);
    forall i | 0 <= i < |cs| ensures Proper(cs[i]) && Fits(cs[i]) {
      assert cs[i] in bs;
    }
    forall tag: word ensures LastOf(bs, tag) == LastOf(cs, tag) {
      LastOfDistinct(bs, tag);
      LastOfDistinct(cs, tag);
    }
    SameLastBlocksSameResult(c, bs, cs);
    BlocksAllOrNothing(c, bs, rest);
    BlocksAllOrNothing(c, cs, rest);
  }

  // ---------- The environment ----------

  /** Entry i is the last one that sets `key`. */
  ghost predicate LastSetter(entries: seq<Str>, key: Str, i: nat) {
    && i < |entries| && HasEquals(entries[i]) && KeyOf(entries[i]) == key
    && forall j: nat | i < j < |entries| && HasEquals(entries[j]) :: KeyOf(entries[j]) != key
  }

  ghost predicate Means(env: Environ, entries: seq<Str>) {
    && (forall key: Str :: key in env ==> exists i: nat :: LastSetter(entries, key, i))
    && (forall key: Str, i: nat | LastSetter(entries, key, i) :: key in env && env[key] == ValueOf(entries[i]))
  }

  /** What an entry is made of: the key is what stands before the first '=', the value what stands
      behind it. */
  lemma EntryParts(entry: Str)
    ensures HasEquals(entry) <==> 61 in entry
    ensures HasEquals(entry) ==> entry == KeyOf(entry) + [61] + ValueOf(entry) && 61 !in KeyOf(entry)
  {
    var n := EqualsAt(entry);
    if n == |entry| {
      assert entry[..n] == entry;
    }
  }

  lemma EntryIs(entry: Str, key: Str)
    requires 61 !in key
    ensures HasEquals(entry) && KeyOf(entry) == key <==> key + [61] <= entry
    ensures forall value: Str | entry == key + [61] + value :: HasEquals(entry) && ValueOf(entry) == value
  {
    EntryParts(entry);
    if key + [61] <= entry {
      assert entry[|key|] == 61;
      assert entry[..|key|] == key;
      FirstEqualsAt(entry, |key|);
    }
    forall value: Str | entry == key + [61] + value ensures HasEquals(entry) && ValueOf(entry) == value {
      assert key + [61] <= entry && entry[|key| + 1..] == value;
    }
  }

  lemma FirstEqualsAt(entry: Str, n: nat)
    requires n < |entry| && entry[n] == 61 && 61 !in entry[..n]
    ensures EqualsAt(entry) == n
  {
    var m := EqualsAt(entry);
    assert forall j | 0 <= j < n :: entry[..n][j] == entry[j];
    assert forall j | 0 <= j < m :: entry[..m][j] == entry[j];
  }

  /** The environment maps a key to a value if and only if the key has no '=', the entry key=value is
      among these, and no later one starts with key=. */
  ghost predicate HoldsExactly(env: Environ, entries: seq<Str>) {
    forall key: Str, value: Str ::
      (key in env && env[key] == value) <==>
        61 !in key && exists i: nat ::
          && i < |entries| && entries[i] == key + [61] + value
          && forall j | i < j < |entries| :: !(key + [61] <= entries[j])
  }

  /** The received environment, byte for byte. Entries without '=' leave no trace, nor does the
      environment that was there before. */
  lemma EnvironmentMeaning(entries: seq<Str>)
    ensures HoldsExactly(PutAll(map[], entries), entries)
  {
    var env := PutAll(map[], entries);
    EnvironmentByParts(entries);
    forall key: Str, value: Str
      ensures (key in env && env[key] == value) <==>
                61 !in key && exists i: nat ::
                  && i < |entries| && entries[i] == key + [61] + value
                  && forall j | i < j < |entries| :: !(key + [61] <= entries[j])
    {
      hide HasEquals, KeyOf, ValueOf, PutAll;
      if key in env {
        var i: nat :| LastSetter(entries, key, i);
        EntryParts(entries[i]);
        forall j | i < j < |entries| ensures !(key + [61] <= entries[j]) {
          EntryIs(entries[j], key);
        }
        assert entries[i] == key + [61] + env[key];
      }
      if i: nat :| 61 !in key && i < |entries| && entries[i] == key + [61] + value
                   && forall j | i < j < |entries| :: !(key + [61] <= entries[j]) {
        assert key + [61] <= entries[i];
        EntryIs(entries[i], key);
        forall j: nat | i < j < |entries| && HasEquals(entries[j]) ensures KeyOf(entries[j]) != key {
          EntryIs(entries[j], key);
        }
        assert LastSetter(entries, key, i);
      }
    }
  }

  /** The same in terms of the parts of the entries. */
  lemma {:induction false} EnvironmentByParts(entries: seq<Str>)
    ensures Means(PutAll(map[], entries), entries)
    decreases |entries|
  {
    if entries != [] {
      var init, last := entries[..|entries| - 1], entries[|entries| - 1];
      EnvironmentByParts(init);
      PutEnvMeaning(PutAll(map[], init), init, last);
      assert entries == init + [last];
    }
  }

  lemma PutEnvMeaning(env: Environ, init: seq<Str>, last: Str)
    requires Means(env, init)
    ensures Means(PutEnv(env, last), init + [last])
  {
    var entries := init + [last];
    assert forall j | 0 <= j < |init| :: init[j] == entries[j];
    forall key: Str | key in PutEnv(env, last) ensures exists i: nat :: LastSetter(entries, key, i) {
      if HasEquals(last) && key == KeyOf(last) {
        assert LastSetter(entries, key, |init|);
      } else {
        var i: nat :| LastSetter(init, key, i);
        assert LastSetter(entries, key, i);
      }
    }
    forall key: Str, i: nat | LastSetter(entries, key, i)
      ensures key in PutEnv(env, last) && PutEnv(env, last)[key] == ValueOf(entries[i])
    {
      if i < |init| {
        assert HasEquals(last) ==> KeyOf(entries[|init|]) != key;
        assert LastSetter(init, key, i);
      }
    }
  }
}
