/**
 Renaming a booster by overwriting the argument block of its process, in place.
*/
module ArgBlock {
  import opened Protocol

  // ---------- What the block should hold ----------

  /** The arguments one after the other, each with its terminating NUL. */
  function Flat(args: seq<Str>): (flat: seq<byte>)
    ensures |flat| >= |args|
  {
    if args == [] then [] else args[0] + [0] + Flat(args[1..])
  }

  function Min(a: nat, b: nat): nat { if a <= b then a else b }

  function Zeros(n: nat): (z: seq<byte>)
    ensures |z| == n && forall i | 0 <= i < n :: z[i] == 0
  {
    seq(n, _ => 0)
  }

  /** The first n bytes, the last of them made a NUL. */
  function Cut(flat: seq<byte>, n: nat): seq<byte>
    requires 1 <= n <= |flat|
  {
    flat[..n - 1] + [0]
  }

  /** A block of this capacity after it was renamed. It does not depend on what it held before. */
  function Renamed(capacity: nat, args: seq<Str>): (block: seq<byte>)
    requires capacity > 0 && args != []
    ensures |block| == capacity
  {
    var used := Min(capacity, |Flat(args)|);
    Cut(Flat(args), used) + Zeros(capacity - used)
  }

  /** The whole memory from the start of the block; nothing is done without arguments. */
  function AfterRename(memory: seq<byte>, capacity: nat, args: seq<Str>): seq<byte>
    requires 0 < capacity <= |memory|
  {
    if args == [] then memory else Renamed(capacity, args) + memory[capacity..]
  }

  function AfterRenames(memory: seq<byte>, capacity: nat, names: seq<seq<Str>>): (after: seq<byte>)
    requires 0 < capacity <= |memory|
    ensures |after| == |memory|
    decreases |names|
  {
    if names == [] then memory else AfterRenames(AfterRename(memory, capacity, names[0]), capacity, names[1..])
  }

  /** However often a process is renamed, only the last name is left in the block, and what lies
      behind the block is as it was. */
  lemma {:induction false} OnlyLastNameIsLeft(memory: seq<byte>, capacity: nat, names: seq<seq<Str>>)
    requires 0 < capacity <= |memory| && names != [] && names[|names| - 1] != []
    ensures AfterRenames(memory, capacity, names) == Renamed(capacity, names[|names| - 1]) + memory[capacity..]
    decreases |names|
  {
    var next := AfterRename(memory, capacity, names[0]);
    assert next[capacity..] == memory[capacity..];
    if |names| > 1 {
      OnlyLastNameIsLeft(next, capacity, names[1..]);
    } else {
      assert AfterRenames(next, capacity, names[1..]) == next;
    }
  }

  // ---------- Reading the block back ----------

  /** The distance to the first NUL. */
  function NulAt(s: seq<byte>): (n: nat)
    requires 0 in s
    ensures n < |s| && s[n] == 0 && 0 !in s[..n]
  {
    if s[0] == 0 then 0 else
      var n := NulAt(s[1..]);
      assert s[..n + 1] == [s[0]] + s[1..][..n];
      n + 1
  }

  /** The fields of a block: what stands before each NUL. */
  function Fields(s: seq<byte>): seq<Str>
    decreases |s|
  {
    if 0 !in s then [] else [s[..NulAt(s)]] + Fields(s[NulAt(s) + 1..])
  }

  predicate CStrings(args: seq<Str>) {
    forall i | 0 <= i < |args| :: 0 !in args[i]
  }

  lemma NulAtIs(s: seq<byte>, k: nat)
    requires k < |s| && s[k] == 0 && 0 !in s[..k]
    ensures NulAt(s) == k
  {
    var n := NulAt(s);
    assert forall j | 0 <= j < k :: s[..k][j] == s[j];
    assert forall j | 0 <= j < n :: s[..n][j] == s[j];
  }

  lemma FirstField(a: Str, rest: seq<byte>)
    requires 0 !in a
    ensures Fields(a + [0] + rest) == [a] + Fields(rest)
  {
    var s := a + [0] + rest;
    assert s[..|a|] == a && s[|a| + 1..] == rest;
    NulAtIs(s, |a|);
  }

  /** These are the first fields of the list, the last of them possibly cut. */
  ghost predicate CutList(fields: seq<Str>, args: seq<Str>) {
    && 0 < |fields| <= |args|
    && (forall i | 0 <= i < |fields| - 1 :: fields[i] == args[i])
    && fields[|fields| - 1] <= args[|fields| - 1]
  }

  lemma CutListGrows(a: Str, fields: seq<Str>, args: seq<Str>)
    requires CutList(fields, args)
    ensures CutList([a] + fields, [a] + args)
  {
    assert forall i | 0 < i < |fields| :: ([a] + fields)[i] == fields[i - 1] && ([a] + args)[i] == args[i - 1];
  }

  lemma CutTail(a: Str, more: seq<byte>, n: nat)
    requires |a| + 1 < n <= |a| + 1 + |more|
    ensures Cut(a + [0] + more, n) == a + [0] + Cut(more, n - |a| - 1)
  {
  }

  lemma {:induction false} FieldsOfCut(args: seq<Str>, n: nat)
    requires CStrings(args) && 1 <= n <= |Flat(args)|
    ensures CutList(Fields(Cut(Flat(args), n)), args)
    ensures n == |Flat(args)| ==> Fields(Cut(Flat(args), n)) == args
    decreases |args|
  {
    assert Fields([]) == [];
    hide Fields, NulAt, Flat, Cut;
    var a, others := args[0], args[1..];
    assert [a] + others == args;
    FlatCons(a, others);
    if n <= |a| + 1 {
      CutHead(a, Flat(others), n);
      FirstField(a[..n - 1], []);
      if n == |Flat(args)| {
        assert others == [] && a[..n - 1] == a;
      }
    } else {
      FieldsOfCut(others, n - |a| - 1);
      CutTail(a, Flat(others), n);
      FirstField(a, Cut(Flat(others), n - |a| - 1));
      CutListGrows(a, Fields(Cut(Flat(others), n - |a| - 1)), others);
    }
  }

  lemma CutHead(a: Str, more: seq<byte>, n: nat)
    requires 1 <= n <= |a| + 1
    ensures Cut(a + [0] + more, n) == a[..n - 1] + [0] + []
  {
  }

  /** Byte by byte: the arguments with their NULs, as far as there is room for them and one more NUL, and
      zeros behind. */
  lemma RenamedBytes(capacity: nat, args: seq<Str>)
    requires capacity > 0 && args != []
    ensures var used := if |Flat(args)| <= capacity then |Flat(args)| else capacity;
            var block := Renamed(capacity, args);
            && |block| == capacity && 0 < used
            && (forall i | 0 <= i < used - 1 :: block[i] == Flat(args)[i])
            && (forall i | used - 1 <= i < capacity :: block[i] == 0)
  {
  }

  /** A block that ends in NUL is nothing but its fields, each with its NUL. */
  lemma {:induction false} FieldsMakeUpBlock(s: seq<byte>)
    requires s == [] || s[|s| - 1] == 0
    ensures Flat(Fields(s)) == s
    decreases |s|
  {
    if s == [] {
      assert Fields(s) == [];
    } else {
      assert s[|s| - 1] in s;
      hide Fields, NulAt, Flat;
      var n := NulAt(s);
      var a, rest := s[..n], s[n + 1..];
      SplitAt(s, n);
      FieldsMakeUpBlock(rest);
      FirstField(a, rest);
      FlatCons(a, Fields(rest));
    }
  }

  lemma SplitAt(s: seq<byte>, n: nat)
    requires n < |s|
    ensures s == s[..n] + [s[n]] + s[n + 1..]
    ensures s[n + 1..] == [] || s[n + 1..][|s| - n - 2] == s[|s| - 1]
  {
  }

  lemma FlatCons(a: Str, args: seq<Str>)
    ensures Flat([a] + args) == a + [0] + Flat(args)
  {
    assert ([a] + args)[1..] == args;
  }

  /** Split at its NULs, the used part of a renamed block gives exactly the new arguments if they
      fit, and otherwise the first of them, the last of these possibly cut. Either way these fields, each
      with its NUL, fill the used part, which is as long as it can be. */
  lemma RenamedReadsBack(capacity: nat, args: seq<Str>)
    requires capacity > 0 && args != [] && CStrings(args)
    ensures var used := if |Flat(args)| <= capacity then |Flat(args)| else capacity;
            var block := Renamed(capacity, args);
            && (forall i | used <= i < capacity :: block[i] == 0)
            && Flat(Fields(block[..used])) == block[..used] && |Flat(Fields(block[..used]))| == used
            && (if |Flat(args)| <= capacity then Fields(block[..used]) == args
                else CutList(Fields(block[..used]), args))
  {
    var used := Min(capacity, |Flat(args)|);
    FieldsOfCut(args, used);
    FieldsMakeUpBlock(Cut(Flat(args), used));
    assert Renamed(capacity, args)[..used] == Cut(Flat(args), used);
  }

  // ---------- The booster's method ----------

  lemma {:induction false} FlatSnoc(args: seq<Str>, a: Str)
    ensures Flat(args + [a]) == Flat(args) + a + [0]
    decreases |args|
  {
    if args == [] {
      assert args + [a] == [a];
      assert Flat([a]) == a + [0] + Flat([]);
    } else {
      assert (args + [a])[1..] == args[1..] + [a] && (args + [a])[0] == args[0];
      FlatSnoc(args[1..], a);
      ConcatAssoc(args[0] + [0], Flat(args[1..]), a);
      ConcatAssoc(args[0] + [0], Flat(args[1..]) + a, [0]);
    }
  }

  /** The arguments a process starts with lie one behind the other: each begins where the NUL of
      the one before it ends. */
  ghost predicate Contiguous(memory: seq<byte>, starts: seq<nat>) {
    && starts != [] && starts[0] == 0
    && (forall i | 0 <= i < |starts| :: starts[i] < |memory| && 0 in memory[starts[i]..])
    && (forall i | 0 <= i < |starts| - 1 :: starts[i + 1] == End(memory, starts[i]))
  }

  /** One past the NUL of the string at `start`. */
  ghost function End(memory: seq<byte>, start: nat): (end: nat)
    requires start < |memory| && 0 in memory[start..]
    ensures start < end <= |memory|
  {
    start + NulAt(memory[start..]) + 1
  }

  /** The capacity is the room of the original arguments with their NULs, no more and no less: from each
      start on there are just as many fields as arguments, and the room ends with the last NUL. */
  lemma {:induction false} CapacityIsTheArguments(memory: seq<byte>, starts: seq<nat>, k: nat)
    requires Contiguous(memory, starts) && k < |starts|
    ensures var capacity := End(memory, starts[|starts| - 1]);
            && starts[k] < capacity <= |memory| && memory[capacity - 1] == 0
            && |Fields(memory[starts[k]..capacity])| == |starts| - k
            && Fields(memory[starts[k]..capacity])[0] == memory[starts[k]..][..NulAt(memory[starts[k]..])]
    decreases |starts| - k
  {
    var capacity := End(memory, starts[|starts| - 1]);
    if k + 1 < |starts| {
      CapacityIsTheArguments(memory, starts, k + 1);
      assert starts[k + 1] == End(memory, starts[k]);
    } else {
      assert memory[capacity..capacity] == [] && Fields([]) == [];
    }
    hide Contiguous;
    FieldAt(memory, starts[k], capacity);
  }

  lemma FieldAt(memory: seq<byte>, start: nat, capacity: nat)
    requires start < |memory| && 0 in memory[start..] && End(memory, start) <= capacity <= |memory|
    ensures memory[End(memory, start) - 1] == 0
    ensures Fields(memory[start..capacity]) ==
            [memory[start..][..NulAt(memory[start..])]] + Fields(memory[End(memory, start)..capacity])
  {
    var tail := memory[start..];
    var n := NulAt(tail);
    hide Fields, NulAt;
    assert tail[n] == 0;
    assert memory[start..capacity] == tail[..n] + [0] + memory[End(memory, start)..capacity];
    FirstField(tail[..n], memory[End(memory, start)..capacity]);
  }

  lemma SomethingToMeasure(memory: seq<byte>, starts: seq<nat>)
    requires Contiguous(memory, starts)
    ensures starts != []
  {
  }

  class Booster {
    const memory: array<byte> // from the first byte of parentArgv[0] on
    var spaceAvailable: nat   // 0 until it has been measured

    constructor (memory: array<byte>)
      ensures this.memory == memory && spaceAvailable == 0
    {
      this.memory := memory;
      spaceAvailable := 0;
    }

    ghost predicate Valid()
      reads this
    {
      spaceAvailable <= memory.Length
    }

    /** The capacity of the argument block: measured once, on the original arguments. */
    ghost function Capacity(starts: seq<nat>): nat
      requires spaceAvailable == 0 ==> Contiguous(memory[..], starts)
      reads this, memory
    {
      if spaceAvailable != 0 then spaceAvailable else End(memory[..], starts[|starts| - 1])
    }

    method StrLen(start: nat) returns (n: nat)
      requires start < memory.Length && 0 in memory[start..]
      ensures start + n + 1 == End(memory[..], start)
    {
      ghost var s := memory[..][start..];
      assert s == memory[start..];
      n := 0;
      while memory[start + n] != 0
        invariant n <= NulAt(s) && start + NulAt(s) < memory.Length
        decreases NulAt(s) - n
      {
        assert s[n] == memory[start + n];
        n := n + 1;
      }
      assert forall j | 0 <= j < NulAt(s) :: s[..NulAt(s)][j] == s[j];
      assert s[n] == memory[start + n];
    }

    method MeasureSpace(starts: seq<nat>)
      requires spaceAvailable == 0 && Contiguous(memory[..], starts)
      modifies `spaceAvailable
      ensures spaceAvailable == End(memory[..], starts[|starts| - 1]) && Valid()
    {
      var i := 0;
      while i < |starts|
        invariant 0 <= i <= |starts|
        invariant spaceAvailable == if i < |starts| then starts[i] else End(memory[..], starts[i - 1])
      {
        assert memory[starts[i]..] == memory[..][starts[i]..];
        var n := StrLen(starts[i]);
        spaceAvailable := spaceAvailable + (n + 1);
        i := i + 1;
      }
    }

    /** The new arguments as one block of bytes. */
    method Flatten(args: seq<Str>) returns (flat: seq<byte>)
      ensures flat == Flat(args)
    {
      flat := [];
      var i := 0;
      while i < |args|
        invariant 0 <= i <= |args| && flat == Flat(args[..i])
      {
        FlatSnoc(args[..i], args[i]);
        assert args[..i + 1] == args[..i] + [args[i]];
        flat := flat + args[i] + [0];
        i := i + 1;
      }
      assert args[..i] == args;
    }

    /** memset of the first n bytes to 0. */
    method Clear(n: nat)
      requires n <= memory.Length
      modifies memory
      ensures memory[..] == Zeros(n) + old(memory[..])[n..]
    {
      var i := 0;
      while i < n
        invariant 0 <= i <= n
        invariant forall j | 0 <= j < i :: memory[j] == 0
        invariant forall j | i <= j < memory.Length :: memory[j] == old(memory[j])
      {
        memory[i] := 0;
        i := i + 1;
      }
    }

    /** memcpy of the first n bytes of `source`. */
    method Copy(source: seq<byte>, n: nat)
      requires n <= memory.Length && n <= |source|
      modifies memory
      ensures memory[..] == source[..n] + old(memory[..])[n..]
    {
      var i := 0;
      while i < n
        invariant 0 <= i <= n
        invariant forall j | 0 <= j < i :: memory[j] == source[j]
        invariant forall j | i <= j < memory.Length :: memory[j] == old(memory[j])
      {
        memory[i] := source[i];
        i := i + 1;
      }
    }

    /** Clears the first `capacity` bytes and puts as much of `flat` there as fits, ending in NUL. */
    method Overwrite(flat: seq<byte>, capacity: nat)
      requires 0 < capacity <= memory.Length && flat != []
      modifies memory
      ensures var used := Min(capacity, |flat|);
              memory[..] == Cut(flat, used) + Zeros(capacity - used) + old(memory[..])[capacity..]
      ensures var used := if |flat| <= capacity then |flat| else capacity;
              && (forall i | 0 <= i < used - 1 :: memory[i] == flat[i])
              && (forall i | used - 1 <= i < capacity :: memory[i] == 0)
              && (forall i | capacity <= i < memory.Length :: memory[i] == old(memory[i]))
    {
      var spaceNeeded := Min(capacity, |flat|);
      Clear(capacity);
      if spaceNeeded > 0 {
        Copy(flat, spaceNeeded);
        memory[spaceNeeded - 1] := 0;
      }
    }

    /** Renames the process in place. The space for its arguments is measured on the first call only. */
    method RenameProcess(starts: seq<nat>, sourceArgv: seq<Str>)
      requires Valid() && (spaceAvailable == 0 && starts != [] ==> Contiguous(memory[..], starts))
      modifies memory, `spaceAvailable
      ensures Valid()
      ensures starts == [] || sourceArgv == [] ==>
                memory[..] == old(memory[..]) && spaceAvailable == old(spaceAvailable)
      ensures starts != [] && sourceArgv != [] ==>
                && spaceAvailable == old(Capacity(starts))
                && 0 < spaceAvailable
                && memory[..] == AfterRename(old(memory[..]), spaceAvailable, sourceArgv)
      ensures starts != [] && sourceArgv != [] ==>
                var flat := Flat(sourceArgv);
                var used := if |flat| <= spaceAvailable then |flat| else spaceAvailable;
                && (forall i | 0 <= i < used - 1 :: memory[i] == flat[i])
                && (forall i | used - 1 <= i < spaceAvailable :: memory[i] == 0)
                && (forall i | spaceAvailable <= i < memory.Length :: memory[i] == old(memory[i]))
    {
      if |sourceArgv| > 0 && |starts| > 0 {
        if spaceAvailable == 0 {
          MeasureSpace(starts);
        }
        var newArgv := Flatten(sourceArgv);
        Overwrite(newArgv, spaceAvailable);
      }
    }
  }
}
