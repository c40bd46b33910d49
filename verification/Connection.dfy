/**
 The booster's end of the socket, reading its stream and filling its fields as it goes. Each
 method does what the function of the same name in Request says.
*/
module BoosterConnection {
  import opened Protocol
  import opened Request

  /** The decoded request, filled in by the connection. */
  class AppData {
    var options: int
    var appName: Str
    var fileName: Str
    var priority: int
    var delay: int
    var argc: int
    var argv: seq<Str>
    var io: seq<int>
    var uid: word
    var gid: word

    constructor ()
      ensures Value() == App(0, [], [], 0, 0, 0, [], [], 0, 0)
    {
      options, appName, fileName, priority, delay := 0, [], [], 0, 0;
      argc, argv, io, uid, gid := 0, [], [], 0, 0;
    }

    ghost function Value(): App
      reads this
    {
      App(options, appName, fileName, priority, delay, argc, argv, io, uid, gid)
    }
  }

  class Connection {
    var input: seq<Octet>
    var fileName: Str
    var argc: word
    var argv: seq<Str>
    var priority: word
    var delay: word
    var io: seq<int>
    var sendPid: bool
    var uid: word
    var gid: word
    var env: Environ
    var sent: seq<word>
    const self: word

    ghost function State(): Conn
      reads this
    {
      Conn(input, fileName, argc, argv, priority, delay, io, sendPid, uid, gid, env, sent, self)
    }

    /** `uid` and `gid` are not initialised by the original, so they may start as anything. */
    constructor (input: seq<Octet>, env: Environ, self: word, uid: word, gid: word)
      ensures State() == Conn(input, [], 0, [], 0, 0, [-1, -1, -1], false, uid, gid, env, [], self)
    {
      this.input, this.env, this.self, this.uid, this.gid := input, env, self, uid, gid;
      fileName, argc, argv, priority, delay := [], 0, [], 0, 0;
      io, sendPid, sent := [-1, -1, -1], false, [];
    }

    method SendMsg(msg: word)
      modifies `sent
      ensures sent == old(sent) + [msg]
    {
      sent := sent + [msg];
    }

    method RecvMsg() returns (msg: word)
      modifies `input
      ensures (msg, input) == RecvWord(old(input))
    {
      if |input| < 4 {
        msg, input := 0, [];
      } else {
        msg, input := WordOf(input[..4]), input[4..];
      }
    }

    method ReceiveStr() returns (str: Option<Str>)
      modifies `input
      ensures (str, input) == RecvStr(old(input))
    {
      var size := RecvMsg();
      if size == 0 || size > STR_LEN_MAX {
        return None;
      }
      if |input| < size {
        input := [];
        return None;
      }
      str := Some(CutAtNul(Values(input[..size - 1])));
      input := input[size..];
    }

    method ReceiveMagicWord() returns (options: word)
      modifies `input, `sendPid
      ensures (options, State()) == ReceiveMagic(old(State()))
    {
      var magic := RecvMsg();
      if magic / 0x1_0000 == MSG_MAGIC / 0x1_0000 && VersionRefused(magic) {
        return BAD_MAGIC;
      }
      sendPid := HasBit(magic, OPTION_WAIT);
      options := magic % 0x100;
    }

    method ReceiveName() returns (name: Str)
      modifies `input
      ensures (name, State()) == ReceiveAppName(old(State()))
    {
      var msg := RecvMsg();
      if msg != MSG_NAME {
        return [];
      }
      var str := ReceiveStr();
      name := match str case Some(s) => s case None => [];
    }

    method HandleExec() returns (ok: bool)
      modifies `input, `fileName
      ensures State() == ReceiveExec(old(State()))
    {
      var str := ReceiveStr();
      if str.None? {
        return false;
      }
      fileName := str.value;
      ok := true;
    }

    method ReceiveArgv() returns (ok: bool)
      modifies `input, `argv
      ensures (argv, ok, input) == RecvStrs(old(input), argc)
    {
      hide RecvStr, RecvWord;
      argv := [];
      var i := 0;
      assert argv + RecvStrs(input, argc).0 == RecvStrs(input, argc).0;
      while i < argc
        invariant 0 <= i <= argc && |argv| == i
        invariant var more := RecvStrs(input, argc - i);
                  RecvStrs(old(input), argc) == (argv + more.0, more.1, more.2)
      {
        ghost var more := RecvStrs(input, argc - i);
        ghost var before := argv;
        var str := ReceiveStr();
        if str.None? {
          assert before + more.0 == argv;
          return false;
        }
        argv := argv + [str.value];
        assert before + more.0 == argv + RecvStrs(input, argc - i - 1).0;
        i := i + 1;
      }
      assert argv + [] == argv;
      ok := true;
    }

    method HandleArgs() returns (ok: bool)
      modifies `input, `argc, `argv
      ensures State() == ReceiveArgs(old(State()))
      ensures ok ==> 0 < argc < ARG_MAX && |argv| == argc
    {
      argc := RecvMsg();
      if !(0 < argc < ARG_MAX) {
        return false;
      }
      ok := ReceiveArgv();
    }

    /** Adds each of n entries as it comes in; one without '=' is dropped. */
    method ReceiveEntries(n: nat) returns (ok: bool)
      requires env == map[]
      modifies `input, `env
      ensures (ok, input) == (RecvStrs(old(input), n).1, RecvStrs(old(input), n).2)
      ensures env == PutAll(map[], RecvStrs(old(input), n).0)
    {
      hide RecvStr, RecvWord, HasEquals, KeyOf, ValueOf;
      ghost var got: seq<Str> := [];
      var i := 0;
      assert got + RecvStrs(input, n).0 == RecvStrs(input, n).0;
      while i < n
        invariant 0 <= i <= n && |got| == i
        invariant env == PutAll(map[], got)
        invariant var more := RecvStrs(input, n - i);
                  RecvStrs(old(input), n) == (got + more.0, more.1, more.2)
      {
        ghost var more := RecvStrs(input, n - i);
        ghost var before := got;
        var str := ReceiveStr();
        if str.None? {
          assert before + more.0 == got;
          return false;
        }
        if HasEquals(str.value) {
          env := env[KeyOf(str.value) := ValueOf(str.value)];
        }
        got := got + [str.value];
        assert before + more.0 == got + RecvStrs(input, n - i - 1).0;
        assert got[..|got| - 1] == before;
        i := i + 1;
      }
      assert got + [] == got;
      ok := true;
    }

    method HandleEnv() returns (ok: bool)
      modifies `input, `env
      ensures State() == ReceiveEnv(old(State()))
    {
      env := map[];
      var n := RecvMsg();
      if !(0 < n < MAX_VARS) {
        return false;
      }
      ok := ReceiveEntries(n);
    }

    method HandleIO() returns (ok: bool)
      modifies `input, `io
      ensures State() == ReceiveIO(old(State()))
    {
      if input == [] {
        return false;
      }
      var octet := input[0];
      input := input[1..];
      if octet.fds.None? || |octet.fds.value| != 3 {
        return false;
      }
      io := octet.fds.value;
      ok := true;
    }

    method HandleIDs()
      modifies `input, `uid, `gid
      ensures State() == ReceiveIDs(old(State()))
    {
      uid := RecvMsg();
      gid := RecvMsg();
    }

    method SendPid()
      modifies `sent
      ensures sent == old(sent) + [MSG_PID, self]
    {
      SendMsg(MSG_PID);
      SendMsg(self);
    }

    method SendAppExitStatus(status: int)
      modifies `sent
      ensures sent == old(sent) + [MSG_EXIT, ToWord(status)]
    {
      SendMsg(MSG_EXIT);
      SendMsg(ToWord(status));
    }

    /** Reads actions until END or something that is no action; what the handlers return is not
        looked at. It ends on every stream, because every turn consumes a word. */
    method ReceiveActions() returns (ok: bool)
      modifies this
      ensures Actions(old(State())) == if ok then Accepted(State()) else Rejected(State())
    {
      while true
        invariant Actions(State()) == Actions(old(State()))
        decreases |input|
      {
        var action := RecvMsg();
        ghost var c := State();
        if action == MSG_END {
          SendMsg(MSG_ACK);
          if sendPid {
            SendPid();
          }
          assert State() == Acknowledge(c);
          return true;
        }
        if !IsAction(action) {
          return false;
        }
        HandleAction(action);
      }
    }

    method HandleAction(action: word)
      requires IsAction(action)
      modifies this
      ensures State() == Handle(old(State()), action)
    {
      if action == MSG_EXEC {
        var _ := HandleExec();
      } else if action == MSG_ARGS {
        var _ := HandleArgs();
      } else if action == MSG_ENV {
        var _ := HandleEnv();
      } else if action == MSG_PRIO {
        priority := RecvMsg();
      } else if action == MSG_DELAY {
        delay := RecvMsg();
      } else if action == MSG_IO {
        var _ := HandleIO();
      } else {
        HandleIDs();
      }
    }

    method Receive(appData: AppData) returns (ok: bool)
      modifies this, appData
      ensures ReceiveApplicationData(old(State())) == if ok then Launch(appData.Value(), State()) else Refuse(State())
    {
      hide Actions, ReceiveMagic, ReceiveAppName;
      var options := ReceiveMagicWord();
      appData.options := ToInt(options);
      if appData.options == -1 {
        return false;
      }
      appData.appName := ReceiveName();
      if appData.appName == [] {
        return false;
      }
      ok := ReceiveActions();
      if ok {
        HandOver(appData);
      }
    }

    method HandOver(appData: AppData)
      modifies appData
      ensures appData.Value() ==
              AppOf(ToWord(old(appData.options)), old(appData.appName), State()).(options := old(appData.options))
    {
      appData.fileName := fileName;
      appData.priority, appData.delay := ToInt(priority), ToInt(delay);
      appData.argc, appData.argv := ToInt(argc), argv;
      appData.io := io;
      appData.uid, appData.gid := uid, gid;
    }
  }
}
