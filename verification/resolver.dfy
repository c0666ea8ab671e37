/** The interpreter resolver: `which_in_path` looks a program name up in a
    colon-separated search path, entry by entry, and returns the first candidate that
    is an existing regular file. The file system's answer to "is this path a regular
    file?" is the set `files`. */
module Resolver {
  import opened Results
  import opened Text

  /** `std::env::split_paths` on Unix: the entries between colons, empty ones kept, so
      the empty string is one empty entry. */
  function SplitPaths(s: string): (r: seq<string>)
    ensures |r| > 0
    ensures forall i :: 0 <= i < |r| ==> ':' !in r[i]
  {
    if s == [] then [[]]
    else
      var rest := SplitPaths(s[1..]);
      if s[0] == ':' then [[]] + rest
      else [[s[0]] + rest[0]] + rest[1..]
  }

  /** Splitting loses nothing: the entries joined by colons give the search path back. */
  lemma {:induction false} SplitPathsJoin(s: string)
    ensures JoinWith(SplitPaths(s), ":") == s
  {
    if s != [] {
      var rest := SplitPaths(s[1..]);
      SplitPathsJoin(s[1..]);
      if s[0] == ':' {
        assert ([[]] + rest)[1..] == rest;
      } else {
        var r := [[s[0]] + rest[0]] + rest[1..];
        assert r[1..] == rest[1..];
        if |rest| > 1 {
          assert JoinWith(rest, ":") == rest[0] + ":" + JoinWith(rest[1..], ":");
        }
      }
    }
  }

  /** `PathBuf::join` on Unix: an absolute name replaces the directory, an empty
      directory (an empty search path entry) adds nothing, otherwise exactly one `/`
      separates the two. */
  function JoinPath(dir: string, name: string): (r: string)
    ensures StartsWith(name, "/") ==> r == name
    ensures !StartsWith(name, "/") && (dir == [] || dir[|dir| - 1] == '/') ==> r == dir + name
    ensures !StartsWith(name, "/") && dir != [] && dir[|dir| - 1] != '/' ==> r == dir + "/" + name
  {
    if StartsWith(name, "/") then name
    else if dir == [] || dir[|dir| - 1] == '/' then dir + name
    else dir + "/" + name
  }

  /** The joined path ends with the name and, for a relative name, starts with the
      directory. */
  lemma {:induction false} JoinPathEnds(dir: string, name: string)
    ensures EndsWith(JoinPath(dir, name), name)
    ensures !StartsWith(name, "/") && dir != [] ==> StartsWith(JoinPath(dir, name), dir)
  {
    var r := JoinPath(dir, name);
    if !StartsWith(name, "/") {
      if dir == [] || dir[|dir| - 1] == '/' {
        assert r[|r| - |name|..] == name;
        assert r[..|dir|] == dir;
      } else {
        assert r[|r| - |name|..] == name;
        assert r[..|dir|] == dir;
      }
    }
  }

  /** `Path::file_name` simplified to the last `/`-separated segment. */
  function FileName(path: string): string {
    if path == [] || path[|path| - 1] == '/' then []
    else FileName(path[..|path| - 1]) + [path[|path| - 1]]
  }

  /** `r` is the part of `path` after its last `/`: it holds no `/`, it ends the
      path, and it is either the whole path or preceded by a `/`. */
  predicate LastSegment(path: string, r: string) {
    && '/' !in r
    && EndsWith(path, r)
    && (r == path || path[|path| - |r| - 1] == '/')
  }

  /** The last segment grows with a character other than `/`. */
  lemma {:induction false} LastSegmentStep(front: string, c: char, r: string)
    requires LastSegment(front, r) && c != '/'
    ensures LastSegment(front + [c], r + [c])
  {
    var path := front + [c];
    assert path[|path| - |r| - 1..] == front[|front| - |r|..] + [c];
    if r != front {
      assert path[|path| - |r| - 2] == front[|front| - |r| - 1];
    }
  }

  /** `FileName` is the last segment of the path. */
  lemma {:induction false} FileNameIsLastSegment(path: string)
    ensures LastSegment(path, FileName(path))
    decreases |path|
  {
    if path != [] && path[|path| - 1] != '/' {
      var front := path[..|path| - 1];
      var c := path[|path| - 1];
      FileNameIsLastSegment(front);
      assert path == front + [c];
      LastSegmentStep(front, c, FileName(front));
    }
  }

  /** A bare name after a `/` (or after nothing) is the file name. */
  lemma {:induction false} FileNameAfterSlash(x: string, name: string)
    requires '/' !in name
    requires x == [] || x[|x| - 1] == '/'
    ensures FileName(x + name) == name
    decreases |name|
  {
    if name == [] {
      assert x + name == x;
    } else {
      var p := x + name;
      var front := name[..|name| - 1];
      assert p[..|p| - 1] == x + front;
      assert p[|p| - 1] == name[|name| - 1];
      FileNameAfterSlash(x, front);
      assert front + [name[|name| - 1]] == name;
    }
  }

  /** Joining a bare name onto any directory keeps that name as the file name. */
  lemma {:induction false} FileNameOfJoin(dir: string, name: string)
    requires '/' !in name
    ensures FileName(JoinPath(dir, name)) == name
  {
    assert !StartsWith(name, "/") by {
      if |name| > 0 {
        assert name[0] in name;
      }
    }
    if dir == [] || dir[|dir| - 1] == '/' {
      FileNameAfterSlash(dir, name);
    } else {
      var x := dir + "/";
      assert x[|x| - 1] == '/';
      FileNameAfterSlash(x, name);
    }
  }

  /** The candidate `which_in_path` tries for one search path entry. */
  function Candidate(dir: string, program: string): string {
    JoinPath(dir, program)
  }

  /** Entry `i` is the first entry whose candidate is a regular file. */
  ghost predicate FirstHit(program: string, dirs: seq<string>, files: set<string>, i: int) {
    && 0 <= i < |dirs|
    && Candidate(dirs[i], program) in files
    && forall j :: 0 <= j < i ==> Candidate(dirs[j], program) !in files
  }

  /** Entry `i` is the first entry at or after `k` whose candidate is a regular file. */
  ghost predicate FirstHitFrom(program: string, dirs: seq<string>, files: set<string>, k: nat, i: int) {
    && k <= i < |dirs|
    && Candidate(dirs[i], program) in files
    && forall j :: k <= j < i ==> Candidate(dirs[j], program) !in files
  }

  /** The first regular-file candidate among `dirs[k..]`. */
  function WhichFrom(program: string, dirs: seq<string>, k: nat, files: set<string>): (r: Result<string>)
    requires k <= |dirs|
    ensures r.Ok? ==> exists i :: FirstHitFrom(program, dirs, files, k, i) && r.value == Candidate(dirs[i], program)
    ensures r.Err? ==> (r.error == NotFound(program)
      && forall j :: k <= j < |dirs| ==> Candidate(dirs[j], program) !in files)
    decreases |dirs| - k
  {
    if k == |dirs| then Err(NotFound(program))
    else if Candidate(dirs[k], program) in files then
      assert FirstHitFrom(program, dirs, files, k, k);
      Ok(Candidate(dirs[k], program))
    else
      FirstHitFromMiss(program, dirs, files, k);
      WhichFrom(program, dirs, k + 1, files)
  }

  /** A search that misses at entry `k` finds what the search from `k + 1` finds. */
  lemma {:induction false} FirstHitFromMiss(program: string, dirs: seq<string>, files: set<string>, k: nat)
    requires k < |dirs| && Candidate(dirs[k], program) !in files
    ensures forall i :: FirstHitFrom(program, dirs, files, k + 1, i) ==> FirstHitFrom(program, dirs, files, k, i)
  {
  }

  /** `which_in_path(program, path_env)`: the first entry's candidate that is a
      regular file (characterised by `WhichFirstHit`). */
  function Which(program: string, pathEnv: string, files: set<string>): (r: Result<string>)
    ensures r.Ok? ==> r.value in files
    ensures r.Err? ==> r.error == NotFound(program)
  {
    WhichFrom(program, SplitPaths(pathEnv), 0, files)
  }

  /** `Which` returns the candidate of the first search path entry whose candidate is
      a regular file, and fails exactly when no entry has one. */
  lemma WhichFirstHit(program: string, pathEnv: string, files: set<string>)
    ensures var r := Which(program, pathEnv, files);
      var dirs := SplitPaths(pathEnv);
      && (r.Ok? <==> exists i :: FirstHit(program, dirs, files, i))
      && (r.Ok? ==> exists i :: FirstHit(program, dirs, files, i) && r.value == Candidate(dirs[i], program))
  {
    var dirs := SplitPaths(pathEnv);
    assert forall i :: FirstHitFrom(program, dirs, files, 0, i) <==> FirstHit(program, dirs, files, i);
  }

  /** Two first hits are the same entry. */
  lemma {:induction false} FirstHitUnique(program: string, dirs: seq<string>, files: set<string>, i: int, i': int)
    requires FirstHit(program, dirs, files, i) && FirstHit(program, dirs, files, i')
    ensures i == i'
  {
  }

  /** The entry-by-entry view of `Which`: a hit after misses is the result. */
  lemma {:induction false} WhichAt(program: string, pathEnv: string, files: set<string>, i: nat)
    requires i < |SplitPaths(pathEnv)|
    requires FirstHit(program, SplitPaths(pathEnv), files, i)
    ensures Which(program, pathEnv, files) == Ok(Candidate(SplitPaths(pathEnv)[i], program))
  {
    var dirs := SplitPaths(pathEnv);
    WhichFirstHit(program, pathEnv, files);
    var i' :| FirstHit(program, dirs, files, i') && Which(program, pathEnv, files).value == Candidate(dirs[i'], program);
    FirstHitUnique(program, dirs, files, i, i');
  }

  /** The entry-by-entry view of `Which`: misses everywhere are `NotFound`. */
  lemma {:induction false} WhichNone(program: string, pathEnv: string, files: set<string>)
    requires forall j :: 0 <= j < |SplitPaths(pathEnv)| ==> Candidate(SplitPaths(pathEnv)[j], program) !in files
    ensures Which(program, pathEnv, files) == Err(NotFound(program))
  {
    WhichFirstHit(program, pathEnv, files);
  }

  /** An absolute program name is found, whatever the search path, iff it is itself a
      regular file: every entry's candidate is the name itself. */
  lemma {:induction false} WhichAbsolute(program: string, pathEnv: string, files: set<string>)
    requires StartsWith(program, "/")
    ensures Which(program, pathEnv, files) == if program in files then Ok(program) else Err(NotFound(program))
  {
    var dirs := SplitPaths(pathEnv);
    WhichFirstHit(program, pathEnv, files);
    if program in files {
      assert FirstHit(program, dirs, files, 0);
    }
  }

  /** An empty entry anywhere in the search path (`a::b`, a leading or a trailing
      colon) tries the bare name as a relative path. */
  lemma {:induction false} EmptyEntryBareName(program: string, pathEnv: string, i: nat)
    requires i < |SplitPaths(pathEnv)| && SplitPaths(pathEnv)[i] == []
    ensures Candidate(SplitPaths(pathEnv)[i], program) == program
  {
    assert [] + program == program;
  }

  /** An empty search path is one empty entry, so the bare program name is tried as a
      relative path instead of failing outright. */
  lemma {:induction false} WhichEmptyPath(program: string, files: set<string>)
    ensures Which(program, "", files) == if program in files then Ok(program) else Err(NotFound(program))
  {
    assert SplitPaths("") == [[]];
    assert Candidate([], program) == program by {
      assert [] + program == program;
    }
    WhichFirstHit(program, "", files);
    if program in files {
      assert FirstHit(program, [[]], files, 0);
    }
  }
}
