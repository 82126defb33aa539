/**
 * An abstract file system: the regular files, each with its text, and the set
 * of directories, both keyed by path string. The steps the generator takes on
 * it (an existence test, directory creation, opening a file for writing with
 * truncation, and writing to the open file) are given first as functions on a
 * `Store` value and then as the methods of a `FileSystem` object that follow
 * them.
 */
module FileStore {
  import opened Wrappers
  import opened Text

  /** What the operating system may raise. */
  datatype IoError =
    | FileNotFound(path: string)
    | FileExists(path: string)
    | IsADirectory(path: string)
    | NotADirectory(path: string)

  /** A snapshot of the file system. */
  datatype Store = Store(files: map<string, string>, dirs: set<string>)

  /**
   * No path is both a regular file and a directory. A sanity invariant: the
   * steps below keep it, but none of them needs it.
   */
  predicate Valid(s: Store) {
    forall p :: p in s.dirs ==> p !in s.files
  }

  /**
   * `os.path.exists`: the path names a file or a directory. The empty path
   * never exists, whatever the store holds.
   */
  predicate PathExists(s: Store, p: string) {
    p != [] && (p in s.files || p in s.dirs)
  }

  /**
   * POSIX `os.path.join` of two components: an absolute second component
   * replaces the first; otherwise a separator is inserted unless the first is
   * empty or already ends with one.
   */
  function JoinPath(dir: string, name: string): string {
    if name != [] && name[0] == '/' then name
    else if dir == [] || dir[|dir| - 1] == '/' then dir + name
    else dir + "/" + name
  }

  /**
   * The joined path ends with the file name and, unless the name is absolute,
   * starts with the directory; a separator is put between them exactly when
   * the directory does not already end in one.
   */
  lemma JoinPathShape(dir: string, name: string)
    ensures EndsWith(JoinPath(dir, name), name)
    ensures name == [] || name[0] != '/' ==> StartsWith(JoinPath(dir, name), dir)
    ensures name != [] && name[0] != '/' && dir != [] && dir[|dir| - 1] != '/' ==>
              JoinPath(dir, name) == dir + "/" + name
    ensures name != [] && name[0] == '/' ==> JoinPath(dir, name) == name
  {
    var r := JoinPath(dir, name);
    if !(name != [] && name[0] == '/') {
      assert r[..|dir|] == dir;
    }
  }

  /**
   * `os.makedirs(p)` without `exist_ok`: fails on the empty path and on a
   * path that already exists, otherwise `p` becomes a directory.
   */
  function MakeDirsStep(s: Store, p: string): (Store, Outcome<IoError>) {
    if p == [] then (s, Fail(FileNotFound(p)))
    else if PathExists(s, p) then (s, Fail(FileExists(p)))
    else (Store(s.files, s.dirs + {p}), Pass)
  }

  /**
   * `open(os.path.join(dir, name), "w")`: creates the file or truncates it to
   * empty. It fails when the target is a directory, when `dir` is a regular
   * file, or when `dir` does not exist (the empty `dir` is the current
   * directory, which always exists).
   */
  function OpenStep(s: Store, dir: string, name: string): (r: (Store, Outcome<IoError>))
    ensures r.1.Pass? ==> JoinPath(dir, name) in r.0.files && r.0.files[JoinPath(dir, name)] == ""
  {
    var target := JoinPath(dir, name);
    if target in s.dirs then (s, Fail(IsADirectory(target)))
    else if dir in s.files then (s, Fail(NotADirectory(target)))
    else if dir != [] && dir !in s.dirs then (s, Fail(FileNotFound(target)))
    else (Store(s.files[target := ""], s.dirs), Pass)
  }

  /** `f.write(chunk)` on a file opened for writing: the chunk goes at the end. */
  function WriteStep(s: Store, target: string, chunk: string): (r: Store)
    requires target in s.files
  {
    Store(s.files[target := s.files[target] + chunk], s.dirs)
  }

  /** Each step keeps regular files and directories apart. */
  lemma StepsPreserveValid(s: Store, dir: string, name: string, target: string, chunk: string)
    requires Valid(s)
    ensures Valid(MakeDirsStep(s, dir).0)
    ensures Valid(OpenStep(s, dir, name).0)
    ensures target in s.files ==> Valid(WriteStep(s, target, chunk))
  {
  }

  /** The file system the generator runs against. */
  class FileSystem {
    var files: map<string, string>
    var dirs: set<string>

    /** The current snapshot. */
    function State(): Store
      reads this
    {
      Store(files, dirs)
    }

    constructor (s: Store)
      ensures State() == s
    {
      files := s.files;
      dirs := s.dirs;
    }

    method Exists(p: string) returns (b: bool)
      ensures b == PathExists(State(), p)
    {
      b := p != [] && (p in files || p in dirs);
    }

    method MakeDirs(p: string) returns (o: Outcome<IoError>)
      modifies this
      ensures (State(), o) == MakeDirsStep(old(State()), p)
    {
      if p == [] {
        o := Fail(FileNotFound(p));
      } else if p in files || p in dirs {
        o := Fail(FileExists(p));
      } else {
        dirs := dirs + {p};
        o := Pass;
      }
    }

    /** Opens `dir`/`name` for writing and returns the path it opened. */
    method Open(dir: string, name: string) returns (target: string, o: Outcome<IoError>)
      modifies this
      ensures target == JoinPath(dir, name)
      ensures (State(), o) == OpenStep(old(State()), dir, name)
      ensures o.Pass? ==> target in files && files[target] == ""
    {
      target := JoinPath(dir, name);
      if target in dirs {
        o := Fail(IsADirectory(target));
      } else if dir in files {
        o := Fail(NotADirectory(target));
      } else if dir != [] && dir !in dirs {
        o := Fail(FileNotFound(target));
      } else {
        files := files[target := ""];
        o := Pass;
      }
    }

    method Write(target: string, chunk: string)
      requires target in files
      modifies this
      ensures State() == WriteStep(old(State()), target, chunk)
      ensures target in files && files[target] == old(files[target]) + chunk
    {
      files := files[target := files[target] + chunk];
    }
  }
}
