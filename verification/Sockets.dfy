/**
 The plugin registry and the table of listening sockets, up to the point where a forked child has
 closed the sockets it has no use for.
*/
module Sockets {

  // ---------- The registry ----------

  /** A registered booster plugin: its type and the path of its socket. */
  datatype Plugin = Plugin(kind: char, socketName: string)

  ghost predicate OnePerType(ps: seq<Plugin>) {
    forall i, j | 0 <= i < j < |ps| :: ps[i].kind != ps[j].kind
  }

  /** The index of the first plugin of a type; |ps| when there is none. */
  function IndexOf(ps: seq<Plugin>, kind: char): (n: nat)
    ensures n <= |ps| && (n < |ps| ==> ps[n].kind == kind)
    ensures forall i | 0 <= i < n :: ps[i].kind != kind
  {
    if ps == [] || ps[0].kind == kind then 0 else 1 + IndexOf(ps[1..], kind)
  }

  function Register(ps: seq<Plugin>, p: Plugin): seq<Plugin> {
    var n := IndexOf(ps, p.kind);
    if n < |ps| then ps[n := p] else ps + [p]
  }

  function RegisterAll(ps: seq<Plugin>, news: seq<Plugin>): seq<Plugin>
    decreases |news|
  {
    if news == [] then ps else Register(RegisterAll(ps, news[..|news| - 1]), news[|news| - 1])
  }

  /** The plugin was registered, and none of its type after it. */
  ghost predicate LastOfItsType(news: seq<Plugin>, p: Plugin) {
    exists i :: 0 <= i < |news| && news[i] == p && forall j | i < j < |news| :: news[j].kind != p.kind
  }

  /** However plugins are registered, the registry holds one entry for each type, the last one. */
  lemma {:induction false} RegistryHoldsLastOfEachType(news: seq<Plugin>)
    ensures OnePerType(RegisterAll([], news))
    ensures forall p :: p in RegisterAll([], news) <==> LastOfItsType(news, p)
    decreases |news|
  {
    if news != [] {
      var init, last := news[..|news| - 1], news[|news| - 1];
      RegistryHoldsLastOfEachType(init);
      RegisterKeepsOthers(RegisterAll([], init), last);
      forall p ensures LastOfItsType(news, p) <==> p == last || (LastOfItsType(init, p) && p.kind != last.kind) {
        LastOfSnoc(init, last, p);
        assert init + [last] == news;
      }
    }
  }

  lemma LastOfSnoc(init: seq<Plugin>, last: Plugin, p: Plugin)
    ensures LastOfItsType(init + [last], p) <==> p == last || (LastOfItsType(init, p) && p.kind != last.kind)
  {
    var news := init + [last];
    if LastOfItsType(news, p) && p != last {
      var i :| 0 <= i < |news| && news[i] == p && forall j | i < j < |news| :: news[j].kind != p.kind;
      assert init[i] == p && news[|init|].kind != p.kind;
      assert forall j | i < j < |init| :: init[j] == news[j];
    }
    if LastOfItsType(init, p) && p.kind != last.kind {
      var i :| 0 <= i < |init| && init[i] == p && forall j | i < j < |init| :: init[j].kind != p.kind;
      assert news[i] == p && forall j | i < j < |news| :: news[j].kind != p.kind;
    }
    if p == last {
      assert news[|init|] == p;
    }
  }

  lemma RegisterKeepsOthers(ps: seq<Plugin>, p: Plugin)
    requires OnePerType(ps)
    ensures OnePerType(Register(ps, p))
    ensures forall q :: q in Register(ps, p) <==> q == p || (q in ps && q.kind != p.kind)
  {
    var n := IndexOf(ps, p.kind);
    var after := Register(ps, p);
    forall q | q in ps && q.kind != p.kind ensures q in after {
      var i :| 0 <= i < |ps| && ps[i] == q;
      assert after[i] == q;
    }
    assert after[n] == p;
  }

  class BoosterPluginRegistry {
    var registry: seq<Plugin>

    constructor ()
      ensures registry == []
    {
      registry := [];
    }

    /** -1 for a type that is not registered. */
    method PluginEntry(kind: char) returns (i: int)
      ensures i == if IndexOf(registry, kind) < |registry| then IndexOf(registry, kind) else -1
    {
      i := 0;
      while i < |registry|
        invariant 0 <= i <= |registry|
        invariant IndexOf(registry, kind) == i + IndexOf(registry[i..], kind)
      {
        if registry[i].kind == kind {
          return;
        }
        assert registry[i..][1..] == registry[i + 1..];
        i := i + 1;
      }
      i := -1;
    }

    method RegisterPlugin(kind: char, socketName: string)
      requires OnePerType(registry)
      modifies this
      ensures OnePerType(registry) && registry == Register(old(registry), Plugin(kind, socketName))
    {
      RegisterKeepsOthers(registry, Plugin(kind, socketName));
      var i := PluginEntry(kind);
      if i == -1 {
        registry := registry + [Plugin(kind, socketName)];
      } else {
        registry := registry[i := Plugin(kind, socketName)];
      }
    }
  }

  // ---------- The socket table ----------

  type Table = map<string, int>

  ghost predicate DistinctFds(t: Table) {
    forall a, b | a in t && b in t && a != b :: t[a] != t[b]
  }

  ghost function Names(ps: seq<Plugin>): set<string> {
    set p | p in ps :: p.socketName
  }

  /** The socket names of all plugins of other types. */
  ghost function OtherNames(ps: seq<Plugin>, kind: char): set<string> {
    set p | p in ps && p.kind != kind :: p.socketName
  }

  ghost predicate NoRepeats(fds: seq<int>) {
    forall i, j | 0 <= i < j < |fds| :: fds[i] != fds[j]
  }

  /** The descriptors that were given up in going from one table to a smaller one, each once. */
  ghost predicate GivenUp(before: Table, after: Table, fds: seq<int>) {
    && NoRepeats(fds)
    && forall fd :: fd in fds <==> exists name :: name in before && name !in after && before[name] == fd
  }

  class SocketManager {
    var table: Table
    var nextFd: nat         // what socket() will return next: no open descriptor is as large
    var closedFds: seq<int> // every close so far

    constructor (nextFd: nat)
      ensures table == map[] && closedFds == [] && this.nextFd == nextFd && Valid()
    {
      table, closedFds, this.nextFd := map[], [], nextFd;
    }

    ghost predicate Valid()
      reads this
    {
      DistinctFds(table) && forall name | name in table :: 0 <= table[name] < nextFd
    }

    /** Opens a listening socket for the name unless there is one. */
    method InitSocket(name: string)
      requires Valid()
      modifies this
      ensures Valid() && closedFds == old(closedFds)
      ensures table.Keys == old(table).Keys + {name}
      ensures forall n | n in old(table) :: table[n] == old(table)[n]
    {
      if name !in table {
        table := table[name := nextFd];
        nextFd := nextFd + 1;
      }
    }

    method CloseSocket(name: string)
      requires Valid()
      modifies this
      ensures Valid() && table == old(table) - {name}
      ensures closedFds == old(closedFds) + (if name in old(table) then [old(table)[name]] else [])
    {
      if name in table {
        closedFds := closedFds + [table[name]];
        table := table - {name};
      }
    }

    method FindSocket(name: string) returns (fd: int)
      ensures fd == if name in table then table[name] else -1
    {
      fd := if name in table then table[name] else -1;
    }

    /** Closes all that is open. A descriptor 0 would only be forgotten. */
    method CloseAllSockets()
      requires Valid()
      modifies this
      ensures table == map[] && |closedFds| >= |old(closedFds)| && closedFds[..|old(closedFds)|] == old(closedFds)
      ensures NoRepeats(closedFds[|old(closedFds)|..])
      ensures forall fd :: fd in closedFds[|old(closedFds)|..] <==> fd > 0 && fd in old(table).Values
    {
      var rest := table.Keys;
      ghost var log: seq<int> := [];
      while rest != {}
        invariant rest <= table.Keys && table == old(table) && Valid()
        invariant closedFds == old(closedFds) + log && NoRepeats(log)
        invariant forall fd :: fd in log <==> fd > 0 && exists n :: n in table && n !in rest && table[n] == fd
        decreases |rest|
      {
        var name :| name in rest;
        ghost var before := log;
        assert table[name] !in log;
        if table[name] > 0 {
          closedFds := closedFds + [table[name]];
          log := log + [table[name]];
        }
        rest := rest - {name};
        forall fd ensures fd in log <==> fd > 0 && exists n :: n in table && n !in rest && table[n] == fd {
          assert fd in log <==> fd in before || (fd == table[name] && fd > 0);
        }
      }
      assert closedFds[|old(closedFds)|..] == log;
      table := map[];
    }

    /** One listening socket for each plugin. */
    method InitBoosterSockets(ps: seq<Plugin>)
      requires Valid() && table == map[]
      modifies this
      ensures Valid() && table.Keys == Names(ps) && closedFds == old(closedFds)
    {
      var i := 0;
      while i < |ps|
        invariant 0 <= i <= |ps|
        invariant Valid() && table.Keys == Names(ps[..i]) && closedFds == old(closedFds)
      {
        InitSocket(ps[i].socketName);
        assert ps[..i + 1] == ps[..i] + [ps[i]];
        i := i + 1;
      }
      assert ps[..i] == ps;
    }

    /** Closes one socket and continues the list of descriptors given up since `start`. */
    method GiveUp(name: string, ghost start: Table, ghost log: seq<int>) returns (ghost longer: seq<int>)
      requires Valid() && DistinctFds(start) && GivenUp(start, table, log)
      requires forall n | n in table :: n in start && start[n] == table[n]
      modifies this
      ensures Valid() && table == old(table) - {name} && log <= longer
      ensures closedFds == old(closedFds) + longer[|log|..] && GivenUp(start, table, longer)
    {
      if name in table {
        OneMoreGivenUp(start, table, log, name);
        longer := log + [table[name]];
      } else {
        assert table - {name} == table;
        longer := log;
      }
      CloseSocket(name);
    }

    /** What a forked child of the given type does: it closes the sockets of all other types. */
    method CloseUnusedSockets(ps: seq<Plugin>, kind: char)
      requires Valid()
      modifies this
      ensures Valid() && table == old(table) - OtherNames(ps, kind)
      ensures |closedFds| >= |old(closedFds)| && closedFds[..|old(closedFds)|] == old(closedFds)
      ensures GivenUp(old(table), table, closedFds[|old(closedFds)|..])
    {
      hide GivenUp;
      NothingGivenUp(table);
      ghost var log: seq<int> := [];
      var i := 0;
      while i < |ps|
        invariant 0 <= i <= |ps|
        invariant Valid() && table == old(table) - OtherNames(ps[..i], kind)
        invariant closedFds == old(closedFds) + log && GivenUp(old(table), table, log)
      {
        OtherNamesSnoc(ps[..i], ps[i], kind);
        assert ps[..i + 1] == ps[..i] + [ps[i]];
        if ps[i].kind != kind {
          ghost var before := log;
          log := GiveUp(ps[i].socketName, old(table), log);
          assert log == before + log[|before|..];
        }
        i := i + 1;
      }
      assert ps[..i] == ps;
      assert closedFds[|old(closedFds)|..] == log;
    }
  }

  // ---------- From registration to the forked child ----------

  ghost predicate DistinctNames(ps: seq<Plugin>) {
    forall p, q | p in ps && q in ps && p != q :: p.socketName != q.socketName
  }

  /** These are exactly the descriptors of the other types' sockets, each once. */
  ghost predicate SocketsOfOthers(ps: seq<Plugin>, own: Plugin, before: Table, fds: seq<int>)
    requires before.Keys == Names(ps)
  {
    && NoRepeats(fds)
    && forall fd :: fd in fds <==> exists p :: p in ps && p.kind != own.kind && SocketOf(ps, before, p) == fd
  }

  ghost function SocketOf(ps: seq<Plugin>, table: Table, p: Plugin): int
    requires p in ps && table.Keys == Names(ps)
  {
    assert p.socketName in Names(ps);
    table[p.socketName]
  }

  lemma ChildsTable(ps: seq<Plugin>, own: Plugin, before: Table, fds: seq<int>)
    requires OnePerType(ps) && DistinctNames(ps) && own in ps && before.Keys == Names(ps) && DistinctFds(before)
    requires GivenUp(before, before - OtherNames(ps, own.kind), fds)
    ensures SocketsOfOthers(ps, own, before, fds) && SocketOf(ps, before, own) !in fds
    ensures before - OtherNames(ps, own.kind) == map[own.socketName := SocketOf(ps, before, own)]
  {
    ChildKeepsOnlyItsSocket(ps, own, before);
    var after := before - OtherNames(ps, own.kind);
    forall fd ensures fd in fds <==> exists p :: p in ps && p.kind != own.kind && SocketOf(ps, before, p) == fd {
      if p :| p in ps && p.kind != own.kind && SocketOf(ps, before, p) == fd {
        assert p.socketName in before && p.socketName !in after;
      }
      if name :| name in before && name !in after && before[name] == fd {
        var p :| p in ps && p.kind != own.kind && p.socketName == name;
        assert SocketOf(ps, before, p) == fd;
      }
    }
  }

  /** A child that has just been forked: it closes what it does not need and finds its own socket.
      When names are distinct it finds the very socket that was opened for it, still open, has nothing
      else in its table, and has closed the sockets of all other types, each once. */
  method EnterChild(registry: BoosterPluginRegistry, manager: SocketManager, own: Plugin) returns (fd: int)
    requires OnePerType(registry.registry) && DistinctNames(registry.registry) && own in registry.registry
    requires manager.Valid() && manager.table.Keys == Names(registry.registry)
    modifies manager
    ensures fd == SocketOf(registry.registry, old(manager.table), own) && manager.table == map[own.socketName := fd]
    ensures |manager.closedFds| >= |old(manager.closedFds)|
    ensures var fds := manager.closedFds[|old(manager.closedFds)|..];
            fd !in fds && SocketsOfOthers(registry.registry, own, old(manager.table), fds)
  {
    hide GivenUp, OtherNames;
    manager.CloseUnusedSockets(registry.registry, own.kind);
    ChildsTable(registry.registry, own, old(manager.table), manager.closedFds[|old(manager.closedFds)|..]);
    fd := manager.FindSocket(own.socketName);
  }

  /** The daemon before it forks: whatever plugins have been registered, the last of each type has a
      listening socket, and a child of any of these types may be forked. */
  method OpenForBusiness(news: seq<Plugin>, nextFd: nat)
    returns (registry: BoosterPluginRegistry, manager: SocketManager)
    ensures fresh(registry) && fresh(manager) && OnePerType(registry.registry)
    ensures forall p :: p in registry.registry <==> LastOfItsType(news, p)
    ensures manager.Valid() && manager.table.Keys == Names(registry.registry) && manager.closedFds == []
  {
    registry := new BoosterPluginRegistry();
    var i := 0;
    while i < |news|
      invariant 0 <= i <= |news| && fresh(registry)
      invariant registry.registry == RegisterAll([], news[..i]) && OnePerType(registry.registry)
    {
      assert news[..i + 1][..i] == news[..i];
      registry.RegisterPlugin(news[i].kind, news[i].socketName);
      i := i + 1;
    }
    assert news[..i] == news;
    RegistryHoldsLastOfEachType(news);
    manager := new SocketManager(nextFd);
    manager.InitBoosterSockets(registry.registry);
  }

  lemma NothingGivenUp(t: Table)
    ensures GivenUp(t, t, [])
  {
  }

  lemma OtherNamesSnoc(ps: seq<Plugin>, p: Plugin, kind: char)
    ensures OtherNames(ps + [p], kind) == OtherNames(ps, kind) + (if p.kind != kind then {p.socketName} else {})
  {
    assert forall q :: q in ps + [p] <==> q in ps || q == p;
  }

  lemma OneMoreGivenUp(start: Table, before: Table, log: seq<int>, name: string)
    requires DistinctFds(start) && GivenUp(start, before, log) && name in before
    requires forall n | n in before :: n in start && start[n] == before[n]
    ensures GivenUp(start, before - {name}, log + [before[name]])
  {
    var after := before - {name};
    var longer := log + [before[name]];
    assert before[name] !in log;
    forall fd ensures fd in longer <==> exists n :: n in start && n !in after && start[n] == fd {
      if n :| n in start && n !in after && start[n] == fd {
        assert n == name || n !in before;
      }
    }
  }

  /** A child's own socket is still in its table exactly when no plugin of another type has the
      same socket name. */
  lemma OwnSocketSurvivesIff(ps: seq<Plugin>, own: Plugin, table: Table)
    requires own in ps && table.Keys == Names(ps)
    ensures own.socketName in table - OtherNames(ps, own.kind)
            <==> forall p | p in ps && p.kind != own.kind :: p.socketName != own.socketName
  {
    assert own.socketName in Names(ps);
  }

  /** With one plugin for each type and no name used twice, a child is left with its own socket and
      nothing else. */
  lemma ChildKeepsOnlyItsSocket(ps: seq<Plugin>, own: Plugin, table: Table)
    requires OnePerType(ps) && own in ps && table.Keys == Names(ps)
    requires DistinctNames(ps)
    ensures own.socketName in table && table - OtherNames(ps, own.kind) == map[own.socketName := table[own.socketName]]
  {
    assert own.socketName in Names(ps);
    var left := table - OtherNames(ps, own.kind);
    forall name | name in left ensures name == own.socketName {
      var p :| p in ps && p.socketName == name;
      assert p.kind == own.kind;
      assert p == own;
    }
    assert own.socketName in left;
  }
}
