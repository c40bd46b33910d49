/**
 The words of the invoker protocol, and how words and strings travel as bytes.
*/
module Protocol {

  type byte = b: int | 0 <= b < 0x100
  type word = w: int | 0 <= w < 0x1_0000_0000

  /** A string without its terminating NUL. */
  type Str = seq<byte>

  const MSG_MAGIC: word := 0xb0070000
  const MSG_MAGIC_VERSION: word := 0x00000300
  const MSG_NAME: word := 0x5a5e0000
  const MSG_EXEC: word := 0xe8ec0000
  const MSG_ARGS: word := 0xa4650000
  const MSG_ENV: word := 0xe5710000
  const MSG_PRIO: word := 0xa1ce0000
  const MSG_DELAY: word := 0xb2de0012
  const MSG_IDS: word := 0xb2df4000
  const MSG_IO: word := 0x10fd0000
  const MSG_END: word := 0xdead0000
  const MSG_PID: word := 0x1d1d0000
  const MSG_EXIT: word := 0xe4170000
  const MSG_ACK: word := 0x600d0000
  const MSG_BAD_CREDS: word := 0x60035800

  const OPTION_WAIT: word := 1
  const OPTION_DLOPEN_GLOBAL: word := 2
  const OPTION_DLOPEN_DEEP: word := 4
  const OPTION_SINGLE_INSTANCE: word := 8

  const STR_LEN_MAX := 4096
  const ARG_MAX := 1024
  const MAX_VARS := 1024

  datatype Option<T> = None | Some(value: T)

  // ---------- Conversions between int and uint32_t ----------

  function ToWord(i: int): word { i % 0x1_0000_0000 }

  function ToInt(w: word): int { if w < 0x8000_0000 then w else w - 0x1_0000_0000 }

  /** A C int travels in two's complement and survives the journey through a word. */
  lemma IntRoundTrip(i: int)
    requires -0x8000_0000 <= i < 0x8000_0000
    ensures ToInt(ToWord(i)) == i
    ensures ToWord(i) == if i >= 0 then i else i + 0x1_0000_0000
  {
    if i < 0 {
      assert i % 0x1_0000_0000 == i + 0x1_0000_0000;
    }
  }

  predicate HasBit(w: word, bit: word)
    requires bit > 0
  {
    (w / bit) % 2 == 1
  }

  // ---------- The stream ----------

  /** One byte of the socket stream, and the descriptors that may be attached to it. */
  datatype Octet = Octet(val: byte, fds: Option<seq<int>>)

  function Raw(b: byte): Octet { Octet(b, None) }

  function Bytes(s: Str): (os: seq<Octet>)
    ensures |os| == |s| && forall i | 0 <= i < |s| :: os[i] == Raw(s[i])
  {
    seq(|s|, i requires 0 <= i < |s| => Raw(s[i]))
  }

  function Values(os: seq<Octet>): (s: Str)
    ensures |s| == |os| && forall i | 0 <= i < |os| :: s[i] == os[i].val
  {
    seq(|os|, i requires 0 <= i < |os| => os[i].val)
  }

  /** Words travel in the byte order of the machine, which is little-endian. */
  function PrintWord(w: word): (os: seq<Octet>)
    ensures |os| == 4
  {
    [Raw(w % 0x100), Raw((w / 0x100) % 0x100), Raw((w / 0x1_0000) % 0x100), Raw(w / 0x100_0000)]
  }

  function WordOf(os: seq<Octet>): word
    requires |os| == 4
  {
    os[0].val + 0x100 * os[1].val + 0x1_0000 * os[2].val + 0x100_0000 * os[3].val
  }

  function PrintStr(s: Str): seq<Octet> {
    PrintWord(ToWord(|s| + 1)) + Bytes(s) + [Raw(0)]
  }

  // ---------- Reading ----------

  /** Reads are short only at the end of the stream, and then count as the word 0. */
  function RecvWord(input: seq<Octet>): (r: (word, seq<Octet>))
    ensures |r.1| <= |input| && (r.0 != 0 ==> |r.1| < |input|)
  {
    if |input| < 4 then (0, []) else (WordOf(input[..4]), input[4..])
  }

  /** The C string at the start of a buffer. */
  function CutAtNul(s: Str): (r: Str)
    ensures 0 !in r && r <= s
    ensures r == s || s[|r|] == 0
  {
    if s == [] || s[0] == 0 then [] else [s[0]] + CutAtNul(s[1..])
  }

  function RecvStr(input: seq<Octet>): (r: (Option<Str>, seq<Octet>))
    ensures |r.1| <= |input| && (r.0.Some? ==> |r.1| < |input|)
  {
    var (size, rest) := RecvWord(input);
    if size == 0 || size > STR_LEN_MAX then (None, rest)
    else if |rest| < size then (None, [])
    else (Some(CutAtNul(Values(rest[..size - 1]))), rest[size..])
  }

  /** Up to n strings in a row; stops at the first that fails. The flag says whether all came. */
  function RecvStrs(input: seq<Octet>, n: nat): (r: (seq<Str>, bool, seq<Octet>))
    ensures |r.2| <= |input| && |r.0| <= n && (r.1 <==> |r.0| == n)
    decreases n
  {
    if n == 0 then ([], true, input)
    else
      match RecvStr(input)
      case (None, rest) => ([], false, rest)
      case (Some(s), rest) => var (ss, ok, end) := RecvStrs(rest, n - 1); ([s] + ss, ok, end)
  }

  // ---------- Reading back what was printed ----------

  lemma ConcatAssoc<T>(a: seq<T>, b: seq<T>, c: seq<T>)
    ensures a + b + c == a + (b + c)
  {
  }

  lemma FourDigits(w: word)
    ensures w % 0x100 + 0x100 * ((w / 0x100) % 0x100)
            + 0x1_0000 * ((w / 0x1_0000) % 0x100) + 0x100_0000 * (w / 0x100_0000) == w
  {
    var q := w / 0x100;
    var r := q / 0x100;
    assert w / 0x1_0000 == r && w / 0x100_0000 == r / 0x100;
  }

  /** The low byte goes first, and no descriptors with it. */
  lemma WordOnTheWire(w: word)
    ensures var os := PrintWord(w);
            && |os| == 4 && (forall i | 0 <= i < 4 :: os[i].fds.None?)
            && os[0].val + 0x100 * os[1].val + 0x1_0000 * os[2].val + 0x100_0000 * os[3].val == w
  {
    FourDigits(w);
  }

  /** The length with the NUL, the bytes, and the NUL. */
  lemma StrOnTheWire(s: Str)
    requires |s| + 1 < 0x1_0000_0000
    ensures var os := PrintStr(s);
            && |os| == |s| + 5 && os[..4] == PrintWord(|s| + 1) && os[|s| + 4] == Raw(0)
            && forall i | 0 <= i < |s| :: os[i + 4] == Raw(s[i])
  {
    hide PrintWord;
  }

  lemma WordRoundTrip(w: word, rest: seq<Octet>)
    ensures RecvWord(PrintWord(w) + rest) == (w, rest)
  {
    var os := PrintWord(w) + rest;
    assert os[..4] == PrintWord(w) && os[4..] == rest;
    FourDigits(w);
  }

  lemma StrRoundTrip(s: Str, rest: seq<Octet>)
    requires 0 !in s && |s| + 1 < 0x1_0000_0000
    ensures |s| + 1 <= STR_LEN_MAX ==> RecvStr(PrintStr(s) + rest) == (Some(s), rest)
    ensures |s| + 1 > STR_LEN_MAX ==> RecvStr(PrintStr(s) + rest) == (None, Bytes(s) + [Raw(0)] + rest)
  {
    hide WordOf, PrintWord;
    var tail := Bytes(s) + [Raw(0)] + rest;
    assert PrintStr(s) + rest == PrintWord(|s| + 1) + tail;
    WordRoundTrip(|s| + 1, tail);
    assert tail[..|s|] == Bytes(s) && tail[|s| + 1..] == rest;
    assert Values(Bytes(s)) == s;
  }

  /** What any stream gives: a length of 0 or above 4096 is all that is read; a stream that ends too early
      is read to its end; and otherwise the last byte counts as a NUL whatever it is, and the string ends
      at its first NUL. */
  lemma AnyStr(n: word, more: seq<Octet>)
    ensures var r := RecvStr(PrintWord(n) + more);
            if n == 0 || n > 4096 then r == (None, more)
            else if |more| < n then r == (None, [])
            else
              && r.1 == more[n..] && r.0.Some?
              && var s := r.0.value;
                 && |s| < n && (forall i | 0 <= i < |s| :: s[i] == more[i].val != 0)
                 && (|s| == n - 1 || more[|s|].val == 0)
  {
    hide WordOf, PrintWord, RecvWord;
    WordRoundTrip(n, more);
    if 0 < n <= 4096 && n <= |more| {
      var s := CutAtNul(Values(more[..n - 1]));
      assert forall i | 0 <= i < |s| :: s[i] == Values(more[..n - 1])[i] && s[i] in s;
    }
  }

  function PrintStrs(ss: seq<Str>): seq<Octet> {
    if ss == [] then [] else PrintStr(ss[0]) + PrintStrs(ss[1..])
  }

  predicate Sendable(s: Str) {
    0 !in s && |s| + 1 < MSG_IO
  }

  predicate Receivable(s: Str) {
    |s| + 1 <= STR_LEN_MAX
  }

  predicate AllSendable(ss: seq<Str>) {
    forall i | 0 <= i < |ss| :: Sendable(ss[i])
  }

  predicate AllReceivable(ss: seq<Str>) {
    forall i | 0 <= i < |ss| :: Receivable(ss[i])
  }

  /** The stream is at the bytes of a string that was too long to be received. */
  ghost predicate InsideLongStr(input: seq<Octet>) {
    exists s: Str, tail :: Sendable(s) && !Receivable(s) && input == Bytes(s) + tail
  }

  /** A list of strings is read back as sent when none of them is too long. */
  lemma {:induction false} StrsRoundTrip(ss: seq<Str>, rest: seq<Octet>)
    requires AllSendable(ss) && AllReceivable(ss)
    ensures RecvStrs(PrintStrs(ss) + rest, |ss|) == (ss, true, rest)
  {
    hide WordOf, PrintWord, RecvWord, RecvStr, PrintStr;
    if ss == [] {
      assert PrintStrs(ss) + rest == rest;
    } else {
      var more := PrintStrs(ss[1..]) + rest;
      assert PrintStrs(ss) + rest == PrintStr(ss[0]) + more;
      StrRoundTrip(ss[0], more);
      StrsRoundTrip(ss[1..], rest);
      assert [ss[0]] + ss[1..] == ss;
    }
  }

  /** Otherwise the reader gives up inside the first one that is. */
  lemma {:induction false} LongStrStopsReader(ss: seq<Str>, rest: seq<Octet>)
    requires AllSendable(ss) && !AllReceivable(ss)
    ensures var r := RecvStrs(PrintStrs(ss) + rest, |ss|);
            && !r.1 && InsideLongStr(r.2)
            && |r.0| < |ss| && r.0 == ss[..|r.0|] && AllReceivable(r.0) && !Receivable(ss[|r.0|])
  {
    hide WordOf, PrintWord, RecvWord, RecvStr, PrintStr;
    var more := PrintStrs(ss[1..]) + rest;
    assert PrintStrs(ss) + rest == PrintStr(ss[0]) + more;
    StrRoundTrip(ss[0], more);
    if Receivable(ss[0]) {
      assert !AllReceivable(ss[1..]);
      LongStrStopsReader(ss[1..], rest);
    } else {
      assert Bytes(ss[0]) + [Raw(0)] + more == Bytes(ss[0]) + ([Raw(0)] + more);
    }
  }
}
