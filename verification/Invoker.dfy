/**
 The invoker program: its option loop, the printing of a request, and the reading of the reply.
*/
module InvokerProgram {
  import opened Protocol
  import opened Request
  import opened Session

  /** The option loop. It stops at the first option that makes the invoker exit. */
  method ParseOptions(opts: seq<Opt>) returns (settings: Option<Settings>)
    ensures settings.None? <==>
              exists i :: 0 <= i < |opts| &&
                (opts[i].Leave? || (opts[i].Respawn? && (opts[i].secs == 0 || opts[i].secs > 10)))
    ensures settings.Some? ==> MeantBy(opts, settings.value)
  {
    var waitTerm := true;
    var magicOptions: word := OPTION_WAIT;
    var respawnDelay := RESPAWN_DELAY;
    assert MeantBy([], Settings(waitTerm, magicOptions, respawnDelay));
    var i := 0;
    while i < |opts|
      invariant 0 <= i <= |opts|
      invariant forall j | 0 <= j < i :: !BadOption(opts[j])
      invariant MeantBy(opts[..i], Settings(waitTerm, magicOptions, respawnDelay))
    {
      if BadOption(opts[i]) {
        return None;
      }
      assert opts[..i + 1] == opts[..i] + [opts[i]];
      assert magicOptions < 0x10;
      ObeyedAsMeant(opts[..i], Settings(waitTerm, magicOptions, respawnDelay), opts[i]);
      hide MeantBy, SetBit, ClearWaitBit;
      match opts[i] {
        case WaitTerm => // the default; it does not take NoWait back
        case NoWait =>
          waitTerm := false;
          magicOptions := ClearWaitBit(magicOptions);
        case GlobalSyms => magicOptions := SetBit(magicOptions, OPTION_DLOPEN_GLOBAL);
        case DeepSyms => magicOptions := SetBit(magicOptions, OPTION_DLOPEN_DEEP);
        case SingleInstance => magicOptions := SetBit(magicOptions, OPTION_SINGLE_INSTANCE);
        case Respawn(secs) => respawnDelay := secs;
        case Leave =>
      }
      i := i + 1;
    }
    assert opts[..i] == opts;
    settings := Some(Settings(waitTerm, magicOptions, respawnDelay));
  }

  /** The entries of a NULL-terminated environment block. */
  function Entries(environ: seq<Option<Str>>): seq<Str> {
    if environ == [] || environ[0].None? then [] else [environ[0].value] + Entries(environ[1..])
  }

  lemma {:induction false} EntriesUpTo(environ: seq<Option<Str>>, n: nat)
    requires n < |environ| && environ[n].None? && forall i | 0 <= i < n :: environ[i].Some?
    ensures |Entries(environ)| == n && forall i | 0 <= i < n :: Entries(environ)[i] == environ[i].value
    decreases n
  {
    if n > 0 {
      EntriesUpTo(environ[1..], n - 1);
    }
  }

  lemma {:induction false} PrintStrsSnoc(ss: seq<Str>, s: Str)
    ensures PrintStrs(ss + [s]) == PrintStrs(ss) + PrintStr(s)
    decreases |ss|
  {
    if ss == [] {
      assert ss + [s] == [s];
      assert PrintStrs([s]) == PrintStr(s) + PrintStrs([]);
    } else {
      PrintStrsSnoc(ss[1..], s);
      assert (ss + [s])[1..] == ss[1..] + [s];
    }
  }

  class Invoker {
    var out: seq<Octet>  // what has been written to the socket
    var reply: seq<word> // what can still be read from it
    const left: Leftover // what its variables hold before anything is read into them

    constructor (reply: seq<word>, left: Leftover)
      ensures out == [] && this.reply == reply && this.left == left
    {
      out := [];
      this.reply := reply;
      this.left := left;
    }

    method SendMsg(msg: word)
      modifies `out
      ensures out == old(out) + PrintWord(msg)
    {
      out := out + PrintWord(msg);
    }

    method SendStr(str: Str)
      modifies `out
      ensures out == old(out) + PrintStr(str)
    {
      SendMsg(ToWord(|str| + 1));
      out := out + (Bytes(str) + [Raw(0)]);
    }

    method SendMagic(options: word)
      requires options < 0x100
      modifies `out
      ensures out == old(out) + PrintWord(MSG_MAGIC + MSG_MAGIC_VERSION + options)
    {
      SendMsg(MSG_MAGIC + MSG_MAGIC_VERSION + options);
    }

    method SendName(name: Str)
      modifies `out
      ensures out == old(out) + (PrintWord(MSG_NAME) + PrintStr(name))
    {
      SendMsg(MSG_NAME);
      SendStr(name);
    }

    method SendExec(exec: Str)
      modifies `out
      ensures out == old(out) + PrintBlock(Exec(exec))
    {
      hide PrintWord, PrintStr;
      SendMsg(MSG_EXEC);
      SendStr(exec);
    }

    method SendArgs(argv: seq<Str>)
      modifies `out
      ensures out == old(out) + PrintBlock(Args(argv))
    {
      hide PrintWord, PrintStr;
      SendMsg(MSG_ARGS);
      SendMsg(ToWord(|argv|));
      ghost var start := out;
      var i := 0;
      while i < |argv|
        invariant 0 <= i <= |argv|
        invariant out == start + PrintStrs(argv[..i])
      {
        PrintStrsSnoc(argv[..i], argv[i]);
        assert argv[..i + 1] == argv[..i] + [argv[i]];
        SendStr(argv[i]);
        i := i + 1;
      }
      assert argv[..i] == argv;
    }

    method SendPrio(prio: int)
      modifies `out
      ensures out == old(out) + PrintBlock(Prio(ToWord(prio)))
    {
      hide PrintWord, PrintStr;
      SendMsg(MSG_PRIO);
      SendMsg(ToWord(prio));
    }

    method SendDelay(delay: word)
      modifies `out
      ensures out == old(out) + PrintBlock(Delay(delay))
    {
      hide PrintWord, PrintStr;
      SendMsg(MSG_DELAY);
      SendMsg(delay);
    }

    method SendIDs(uid: word, gid: word)
      modifies `out
      ensures out == old(out) + PrintBlock(IDs(uid, gid))
    {
      hide PrintWord, PrintStr;
      SendMsg(MSG_IDS);
      SendMsg(uid);
      SendMsg(gid);
    }

    method SendIO(dummy: byte, fds: seq<int>)
      modifies `out
      ensures out == old(out) + PrintBlock(IO(dummy, fds))
    {
      hide PrintWord, PrintStr;
      SendMsg(MSG_IO);
      out := out + [Octet(dummy, Some(fds))];
    }

    /** Counts the variables up to the terminating NULL, then sends each. */
    method SendEnv(environ: seq<Option<Str>>)
      requires None in environ
      modifies `out
      ensures out == old(out) + PrintBlock(Env(Entries(environ)))
    {
      hide PrintWord, PrintStr, Entries, PrintStrs;
      var n := 0;
      while environ[n].Some?
        invariant 0 <= n < |environ| && forall i | 0 <= i < n :: environ[i].Some?
        decreases |environ| - n
      {
        n := n + 1;
      }
      EntriesUpTo(environ, n);
      SendMsg(MSG_ENV);
      SendMsg(ToWord(n));
      SendEntries(environ, n);
    }

    method SendEntries(environ: seq<Option<Str>>, n: nat)
      requires n <= |environ| && |Entries(environ)| == n
      requires forall i | 0 <= i < n :: environ[i] == Some(Entries(environ)[i])
      modifies `out
      ensures out == old(out) + PrintStrs(Entries(environ))
    {
      ghost var entries := Entries(environ);
      assert entries[..0] == [] && PrintStrs([]) == [];
      hide PrintWord, PrintStr, Entries, PrintStrs;
      var i := 0;
      while i < n
        invariant 0 <= i <= n
        invariant out == old(out) + PrintStrs(entries[..i])
      {
        PrintStrsSnoc(entries[..i], entries[i]);
        assert entries[..i + 1] == entries[..i] + [entries[i]];
        SendStr(environ[i].value);
        i := i + 1;
      }
      assert entries[..i] == entries;
    }

    /** The seven blocks, in order. */
    method SendBlocks(r: LaunchRequest, environ: seq<Option<Str>>)
      requires None in environ && r.env == Entries(environ)
      modifies `out
      ensures out == old(out) + PrintBlocks(BlocksOf(r))
    {
      hide PrintBlock, PrintBlocks;
      SendExec(r.exec);
      SendArgs(r.argv);
      SendPrio(r.prio);
      SendDelay(r.respawnDelay);
      SendIDs(r.uid, r.gid);
      SendIO(r.dummy, r.fds);
      SendEnv(environ);
      var bs := BlocksOf(r);
      SevenBlocks(bs);
    }

    /** Everything the invoker sends: exactly the printed request. */
    method SendRequest(r: LaunchRequest, environ: seq<Option<Str>>)
      requires Sent(r) && None in environ && r.env == Entries(environ)
      modifies `out
      ensures out == old(out) + PrintRequest(r)
    {
      hide PrintWord, PrintStr, PrintBlocks;
      SendMagic(r.options);
      SendName(r.argv[0]);
      SendBlocks(r, environ);
      SendMsg(MSG_END);
    }

    /** At the end of the stream a read leaves the variable as it was before. */
    method RecvMsg(before: word) returns (msg: word)
      modifies `reply
      ensures msg == (if old(reply) == [] then before else old(reply)[0])
      ensures reply == if old(reply) == [] then [] else old(reply)[1..]
    {
      if reply == [] {
        return before;
      }
      msg := reply[0];
      reply := reply[1..];
    }

    /** Reads the reply to a request that has been sent, up to the invoker's outcome. */
    method AwaitOutcome(waitTerm: bool) returns (outcome: Outcome)
      modifies `reply
      ensures outcome == Listen(waitTerm, AwaitAck, old(reply), left)
    {
      hide Listen;
      ListenOn(waitTerm, AwaitAck, reply, left);
      var action := RecvMsg(left.ack);
      if action != MSG_ACK { // refused credentials and a wrong word alike
        return Died(1);
      }
      if !waitTerm {
        return Returned(0);
      }
      ListenOn(waitTerm, AwaitPidTag, reply, left);
      action := RecvMsg(left.pidTag);
      if action != MSG_PID {
        return Died(1);
      }
      ListenOn(waitTerm, AwaitPid, reply, left);
      var invokedPid := RecvMsg(left.pid);
      ListenOn(waitTerm, AwaitExitTag, reply, left);
      action := RecvMsg(left.exitTag);
      if action != MSG_EXIT {
        return Returned(CONNECTION_LOST);
      }
      ListenOn(waitTerm, AwaitStatus, reply, left);
      var status := RecvMsg(left.status);
      outcome := Returned(ToInt(status));
    }
  }

  lemma SevenBlocks(bs: seq<Block>)
    requires |bs| == 7
    ensures PrintBlocks(bs) == PrintBlock(bs[0]) + PrintBlock(bs[1]) + PrintBlock(bs[2]) + PrintBlock(bs[3])
                               + PrintBlock(bs[4]) + PrintBlock(bs[5]) + PrintBlock(bs[6])
  {
    hide PrintBlock;
    assert PrintBlocks(bs[7..]) == [];
    SplitFirst(bs, 6);
    SplitFirst(bs, 5);
    SplitFirst(bs, 4);
    SplitFirst(bs, 3);
    SplitFirst(bs, 2);
    SplitFirst(bs, 1);
    SplitFirst(bs, 0);
    assert bs[0..] == bs;
  }

  lemma SplitFirst(bs: seq<Block>, k: nat)
    requires k < |bs|
    ensures PrintBlocks(bs[k..]) == PrintBlock(bs[k]) + PrintBlocks(bs[k + 1..])
  {
    hide PrintBlock;
    assert bs[k..][1..] == bs[k + 1..];
  }
}
