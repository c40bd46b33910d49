/**
 The request an invoker prints and the booster's connection parses, as functions on values.
*/
module Request {
  import opened Protocol

  // ---------- The receiving side ----------

  type Environ = map<Str, Str>

  const EQUALS: byte := 61

  /** The fields of a connection, the process environment it fills, and the words it has sent
      back. `argv` holds the arguments received so far; `self` is the booster's own pid. */
  datatype Conn = Conn(
    input: seq<Octet>,
    fileName: Str,
    argc: word,
    argv: seq<Str>,
    priority: word,
    delay: word,
    io: seq<int>,
    sendPid: bool,
    uid: word,
    gid: word,
    env: Environ,
    sent: seq<word>,
    self: word)

  /** The position of the first '='; |s| when there is none. */
  function EqualsAt(s: Str): (n: nat)
    ensures n <= |s| && EQUALS !in s[..n]
    ensures n < |s| ==> s[n] == EQUALS
  {
    if s == [] || s[0] == EQUALS then 0 else
      var n := EqualsAt(s[1..]);
      assert s[..n + 1] == [s[0]] + s[1..][..n];
      n + 1
  }

  predicate HasEquals(s: Str) { EqualsAt(s) < |s| }

  function KeyOf(s: Str): Str { s[..EqualsAt(s)] }

  function ValueOf(s: Str): Str
    requires HasEquals(s)
  {
    s[EqualsAt(s) + 1..]
  }

  /** putenv, behind the check that drops entries without '='. */
  function PutEnv(env: Environ, entry: Str): Environ {
    if HasEquals(entry) then env[KeyOf(entry) := ValueOf(entry)] else env
  }

  function PutAll(env: Environ, entries: seq<Str>): Environ {
    if entries == [] then env
    else PutEnv(PutAll(env, entries[..|entries| - 1]), entries[|entries| - 1])
  }

  predicate IsAction(w: word) {
    w == MSG_EXEC || w == MSG_ARGS || w == MSG_ENV || w == MSG_PRIO || w == MSG_DELAY || w == MSG_IO || w == MSG_IDS
  }

  function ReceiveExec(c: Conn): Conn {
    var (file, rest) := RecvStr(c.input);
    c.(input := rest, fileName := if file.Some? then file.value else c.fileName)
  }

  function ReceiveArgs(c: Conn): Conn {
    var (argc, rest) := RecvWord(c.input);
    if 0 < argc < ARG_MAX then
      var (strs, _, end) := RecvStrs(rest, argc);
      c.(input := end, argc := argc, argv := strs)
    else c.(input := rest, argc := argc)
  }

  /** The environment is cleared even when nothing can be received into it. */
  function ReceiveEnv(c: Conn): Conn {
    var (n, rest) := RecvWord(c.input);
    if 0 < n < MAX_VARS then
      var (strs, _, end) := RecvStrs(rest, n);
      c.(input := end, env := PutAll(map[], strs))
    else c.(input := rest, env := map[])
  }

  function ReceivePriority(c: Conn): Conn {
    var (w, rest) := RecvWord(c.input);
    c.(input := rest, priority := w)
  }

  function ReceiveDelay(c: Conn): Conn {
    var (w, rest) := RecvWord(c.input);
    c.(input := rest, delay := w)
  }

  function ReceiveIDs(c: Conn): Conn {
    var (u, rest) := RecvWord(c.input);
    var (g, end) := RecvWord(rest);
    c.(input := end, uid := u, gid := g)
  }

  /** recvmsg takes one byte, and three descriptors if exactly three are attached to it. */
  function ReceiveIO(c: Conn): Conn {
    if c.input == [] then c
    else
      var fds := c.input[0].fds;
      c.(input := c.input[1..], io := if fds.Some? && |fds.value| == 3 then fds.value else c.io)
  }

  function Handle(c: Conn, action: word): (c': Conn)
    requires IsAction(action)
    ensures |c'.input| <= |c.input|
    ensures c'.sent == c.sent && c'.sendPid == c.sendPid && c'.self == c.self
  {
    if action == MSG_EXEC then ReceiveExec(c)
    else if action == MSG_ARGS then ReceiveArgs(c)
    else if action == MSG_ENV then ReceiveEnv(c)
    else if action == MSG_PRIO then ReceivePriority(c)
    else if action == MSG_DELAY then ReceiveDelay(c)
    else if action == MSG_IO then ReceiveIO(c)
    else ReceiveIDs(c)
  }

  function Acknowledge(c: Conn): Conn {
    c.(sent := c.sent + [MSG_ACK] + (if c.sendPid then [MSG_PID, c.self] else []))
  }

  datatype Verdict = Accepted(c: Conn) | Rejected(c: Conn)

  /** The action loop. What a handler returns is ignored: the loop goes on with whatever comes
      next in the stream. */
  function Actions(c: Conn): (v: Verdict)
    ensures v.Rejected? ==> v.c.sent == c.sent
    decreases |c.input|
  {
    var (action, rest) := RecvWord(c.input);
    var c1 := c.(input := rest);
    if action == MSG_END then Accepted(Acknowledge(c1))
    else if IsAction(action) then Actions(Handle(c1, action))
    else Rejected(c1)
  }

  /** What the booster knows of the application to launch. */
  datatype App = App(
    options: int, appName: Str, fileName: Str, priority: int, delay: int,
    argc: int, argv: seq<Str>, io: seq<int>, uid: word, gid: word)

  function AppOf(options: word, name: Str, c: Conn): App {
    App(ToInt(options), name, c.fileName, ToInt(c.priority), ToInt(c.delay), ToInt(c.argc), c.argv, c.io, c.uid, c.gid)
  }

  datatype Reception = Launch(app: App, c: Conn) | Refuse(c: Conn)

  /** The version test compares the result of a logical negation, 0 or 1, with 0x300. */
  function VersionRefused(magic: word): bool {
    (if (magic / 0x100) % 0x100 == 0 then 1 else 0) == MSG_MAGIC_VERSION
  }

  const BAD_MAGIC: word := 0xffff_ffff

  function ReceiveMagic(c: Conn): (word, Conn) {
    var (magic, rest) := RecvWord(c.input);
    if magic / 0x1_0000 == MSG_MAGIC / 0x1_0000 && VersionRefused(magic) then (BAD_MAGIC, c.(input := rest))
    else (magic % 0x100, c.(input := rest, sendPid := HasBit(magic, OPTION_WAIT)))
  }

  function ReceiveAppName(c: Conn): (Str, Conn) {
    var (msg, rest) := RecvWord(c.input);
    if msg != MSG_NAME then ([], c.(input := rest))
    else
      var (name, end) := RecvStr(rest);
      (if name.Some? then name.value else [], c.(input := end))
  }

  function ReceiveApplicationData(c: Conn): (r: Reception)
    ensures r.Refuse? ==> r.c.sent == c.sent
  {
    var (options, c1) := ReceiveMagic(c);
    if ToInt(options) == -1 then Refuse(c1)
    else
      var (name, c2) := ReceiveAppName(c1);
      if name == [] then Refuse(c2)
      else
        match Actions(c2)
        case Accepted(c3) => Launch(AppOf(options, name, c3), c3)
        case Rejected(c3) => Refuse(c3)
  }

  // ---------- The sending side ----------

  /** One action and its data. `dummy` is the byte that carries the descriptors. */
  datatype Block =
    | Exec(file: Str)
    | Args(argv: seq<Str>)
    | Env(entries: seq<Str>)
    | Prio(prio: word)
    | Delay(delay: word)
    | IDs(uid: word, gid: word)
    | IO(dummy: byte, fds: seq<int>)

  function Tag(b: Block): word {
    match b
    case Exec(_) => MSG_EXEC
    case Args(_) => MSG_ARGS
    case Env(_) => MSG_ENV
    case Prio(_) => MSG_PRIO
    case Delay(_) => MSG_DELAY
    case IDs(_, _) => MSG_IDS
    case IO(_, _) => MSG_IO
  }

  function Body(b: Block): seq<Octet> {
    match b
    case Exec(file) => PrintStr(file)
    case Args(argv) => PrintWord(ToWord(|argv|)) + PrintStrs(argv)
    case Env(entries) => PrintWord(ToWord(|entries|)) + PrintStrs(entries)
    case Prio(prio) => PrintWord(prio)
    case Delay(delay) => PrintWord(delay)
    case IDs(uid, gid) => PrintWord(uid) + PrintWord(gid)
    case IO(dummy, fds) => [Octet(dummy, Some(fds))]
  }

  function PrintBlock(b: Block): seq<Octet> { PrintWord(Tag(b)) + Body(b) }

  function PrintBlocks(bs: seq<Block>): seq<Octet> {
    if bs == [] then [] else PrintBlock(bs[0]) + PrintBlocks(bs[1..])
  }

  /** A launch request. The application's name is its own argv[0]. */
  datatype LaunchRequest = LaunchRequest(
    options: word, exec: Str, argv: seq<Str>, prio: int, respawnDelay: word,
    uid: word, gid: word, dummy: byte, fds: seq<int>, env: seq<Str>)

  function BlocksOf(r: LaunchRequest): seq<Block> {
    [Exec(r.exec), Args(r.argv), Prio(ToWord(r.prio)), Delay(r.respawnDelay),
     IDs(r.uid, r.gid), IO(r.dummy, r.fds), Env(r.env)]
  }

  /** What every invoker satisfies: at least one argument, C strings, counts and lengths that fit
      an int, three descriptors, option bits in the low byte. */
  predicate Sent(r: LaunchRequest) {
    && 1 <= |r.argv| < 0x8000_0000 && |r.env| < 0x8000_0000
    && Sendable(r.exec) && AllSendable(r.argv) && AllSendable(r.env)
    && r.options < 0x100 && |r.fds| == 3
    && -0x8000_0000 <= r.prio < 0x8000_0000
  }

  function PrintRequest(r: LaunchRequest): seq<Octet>
    requires Sent(r)
  {
    PrintWord(MSG_MAGIC + MSG_MAGIC_VERSION + r.options)
    + (PrintWord(MSG_NAME) + (PrintStr(r.argv[0]) + (PrintBlocks(BlocksOf(r)) + PrintWord(MSG_END))))
  }
}
