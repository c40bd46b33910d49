/**
 The single-instance plugin's loop that creates a directory and all directories above it.
*/
module MkPath {
  type Dir = seq<string> // the names on the way from the starting directory

  const MODE_ALL := 0x1ff // rwxrwxrwx, 0777 in octal

  function LastChar(path: string): char { if path == [] then '/' else path[|path| - 1] }

  /** The names after one more character. */
  function Extended(before: Dir, last: char, c: char): Dir
    requires last != '/' ==> before != []
  {
    if c == '/' then before
    else if last == '/' then before + [[c]]
    else before[..|before| - 1] + [before[|before| - 1] + [c]]
  }

  /** The names in a path; slashes only separate, however many there are. */
  function Components(path: string): (names: Dir)
    ensures LastChar(path) != '/' ==> names != []
  {
    if path == [] then []
    else
      var init := path[..|path| - 1];
      Extended(Components(init), LastChar(init), path[|path| - 1])
  }

  lemma ComponentsStep(path: string, c: char)
    ensures Components(path + [c]) == Extended(Components(path), LastChar(path), c)
  {
    assert (path + [c])[..|path|] == path;
  }

  /** A slash is where names are told apart, and nothing else is. */
  lemma {:induction false} ComponentsJoin(p: string, q: string)
    ensures Components(p + ['/'] + q) == Components(p) + Components(q)
    decreases |q|
  {
    hide Components;
    if q == [] {
      ComponentsStep(p, '/');
      NoComponents();
      assert p + ['/'] + q == p + ['/'];
    } else {
      var init, c := q[..|q| - 1], q[|q| - 1];
      assert q == init + [c];
      assert p + ['/'] + q == p + ['/'] + init + [c];
      ComponentsJoin(p, init);
      ComponentsStep(p + ['/'] + init, c);
      ComponentsStep(init, c);
    }
  }

  lemma NoComponents()
    ensures Components([]) == []
  {
  }

  lemma {:induction false} NameIsOneComponent(name: string)
    requires name != [] && '/' !in name
    ensures Components(name) == [name]
    decreases |name|
  {
    var init := name[..|name| - 1];
    assert name == init + [name[|name| - 1]];
    if init != [] {
      NameIsOneComponent(init);
    }
  }

  ghost predicate ParentClosed(fs: map<Dir, nat>) {
    [] in fs && forall d | d in fs && d != [] :: d[..|d| - 1] in fs
  }

  /** A directory and everything above it. */
  ghost predicate OnTheWay(d: Dir, target: Dir) {
    d <= target
  }

  /** Every directory on the way to `target` is there; those that were missing are accessible to
      all, and nothing else has changed. */
  ghost predicate Made(fs: map<Dir, nat>, target: Dir, fs': map<Dir, nat>) {
    && (forall d :: d in fs' <==> d in fs || OnTheWay(d, target))
    && (forall d | d in fs' :: fs'[d] == if d in fs then fs[d] else MODE_ALL)
  }

  class FileSystem {
    var dirs: map<Dir, nat> // each directory's permissions
    const umasked: nat      // the permissions mkdir gives, after the umask

    constructor (dirs: map<Dir, nat>, umasked: nat)
      ensures this.dirs == dirs && this.umasked == umasked
    {
      this.dirs := dirs;
      this.umasked := umasked;
    }

    /** Succeeds exactly when the parent exists and the directory does not. */
    method MkDir(path: string) returns (ok: bool)
      modifies this
      ensures var d := Components(path);
              && ok == (d != [] && d !in old(dirs) && d[..|d| - 1] in old(dirs))
              && dirs == if ok then old(dirs)[d := umasked] else old(dirs)
    {
      var d := Components(path);
      ok := d != [] && d !in dirs && d[..|d| - 1] in dirs;
      if ok {
        dirs := dirs[d := umasked];
      }
    }

    method ChMod(path: string, mode: nat)
      requires Components(path) in dirs
      modifies this
      ensures dirs == old(dirs)[Components(path) := mode]
    {
      dirs := dirs[Components(path) := mode];
    }

    /** mkdir, and chmod if that succeeded, because mkdir's permissions are subject to the umask. */
    method MakePart(part: string, ghost fs: map<Dir, nat>, ghost done: Dir)
      requires ParentClosed(fs) && Made(fs, done, dirs)
      requires var names := Components(part);
               names == done || (names != [] && names[..|names| - 1] == done)
      modifies this
      ensures Made(fs, Components(part), dirs)
    {
      ghost var before := dirs;
      var ok := MkDir(part);
      if ok {
        ChMod(part, MODE_ALL);
      }
      MadeOneMore(fs, done, before, Components(part), dirs);
    }

    /** Whatever slashes the path has, every directory on the way to it exists afterwards. Each is
        created after its parent, and the permissions of those that existed stay as they were. */
    method MakePath(path: string)
      requires ParentClosed(dirs)
      modifies this
      ensures Made(old(dirs), Components(path), dirs)
      ensures forall d :: d in dirs <==> d in old(dirs) || d <= Components(path)
      ensures forall d | d in dirs :: dirs[d] == if d in old(dirs) then old(dirs)[d] else 511
      ensures [] in dirs && forall d | d in dirs && d != [] :: d[..|d| - 1] in dirs
      ensures ParentClosed(dirs)
    {
      hide Components, Complete, Made, ParentClosed;
      NothingMadeYet(dirs, path);
      var i := 0;
      while i < |path|
        invariant 0 <= i <= |path|
        invariant Made(old(dirs), Complete(path, i), dirs)
      {
        CompleteStep(path, i);
        if (i + 1 < |path| && path[i + 1] == '/' && path[i] != '/') || i + 1 == |path| {
          MakePart(path[..i + 1], old(dirs), Complete(path, i));
        }
        i := i + 1;
      }
      AllComplete(path);
      MadeKeepsParentClosed(old(dirs), Components(path), dirs);
      MadeInFull(old(dirs), Components(path), dirs);
    }
  }

  lemma MadeInFull(fs: map<Dir, nat>, target: Dir, after: map<Dir, nat>)
    requires Made(fs, target, after) && ParentClosed(fs) && ParentClosed(after)
    ensures forall d :: d in after <==> d in fs || d <= target
    ensures forall d | d in after :: after[d] == if d in fs then fs[d] else 511
    ensures [] in after && [] in fs && after[[]] == fs[[]]
    ensures forall d | d in after && d != [] :: d[..|d| - 1] in after
  {
    forall d ensures d in after <==> d in fs || d <= target {
      assert OnTheWay(d, target) == (d <= target);
    }
  }

  lemma MadeKeepsParentClosed(fs: map<Dir, nat>, target: Dir, after: map<Dir, nat>)
    requires ParentClosed(fs) && Made(fs, target, after)
    ensures ParentClosed(after)
  {
    forall d | d in after && d != [] ensures d[..|d| - 1] in after {
      if OnTheWay(d, target) {
        assert OnTheWay(d[..|d| - 1], target);
      }
    }
  }

  /** The names that are complete after the first i characters: the last one is not when its next
      character is still to come. */
  ghost function Complete(path: string, i: nat): Dir
    requires i <= |path|
  {
    var names := Components(path[..i]);
    if 0 < i < |path| && path[i - 1] != '/' && path[i] != '/' then
      assert path[..i][|path[..i]| - 1] != '/';
      names[..|names| - 1]
    else names
  }

  lemma NothingMadeYet(fs: map<Dir, nat>, path: string)
    requires ParentClosed(fs)
    ensures Made(fs, Complete(path, 0), fs)
  {
    assert path[..0] == [] && Complete(path, 0) == [];
  }

  lemma AllComplete(path: string)
    ensures Complete(path, |path|) == Components(path)
  {
    assert path[..|path|] == path;
  }

  lemma CompleteStep(path: string, i: nat)
    requires i < |path|
    ensures var names := Components(path[..i + 1]);
            var closes := (i + 1 < |path| && path[i + 1] == '/' && path[i] != '/') || i + 1 == |path|;
            && (path[i] == '/' ==> names == Complete(path, i) == Complete(path, i + 1))
            && (path[i] != '/' ==>
                  && names != [] && names[..|names| - 1] == Complete(path, i)
                  && Complete(path, i + 1) == if closes then names else Complete(path, i))
  {
    var part := path[..i + 1];
    assert part[..i] == path[..i] && part[i] == path[i];
    if i > 0 {
      assert part[i - 1] == path[i - 1];
    }
  }

  /** One mkdir in a place whose parent is there. */
  lemma MadeOneMore(fs: map<Dir, nat>, done: Dir, before: map<Dir, nat>, names: Dir, after: map<Dir, nat>)
    requires ParentClosed(fs) && Made(fs, done, before)
    requires names == done || (names != [] && names[..|names| - 1] == done)
    requires after == if names != [] && names !in before && names[..|names| - 1] in before
                      then before[names := MODE_ALL] else before
    ensures Made(fs, names, after)
  {
    assert OnTheWay(done, done);
    forall d: Dir ensures OnTheWay(d, names) <==> OnTheWay(d, done) || d == names {
      if d <= names && d != names && names != done {
        assert |d| <= |done| && d == names[..|d|] == done[..|d|];
      }
    }
  }
}
