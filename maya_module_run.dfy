/**
 * What one run of the generator does to the file system: where the file goes,
 * that it is overwritten rather than appended to, that nothing else changes,
 * when the run fails, and that running it again changes nothing.
 */
module MayaModuleRun {
  import opened Wrappers
  import opened FileStore
  import opened MayaModule

  /** The directories after the existence test and the possible `os.makedirs`. */
  function DirsAfterPrepare(s: Store, dst: string): set<string> {
    if PathExists(s, dst) || dst == [] then s.dirs else s.dirs + {dst}
  }

  /** A completed run leaves exactly `content` in the target file, and `dst` is a directory. */
  lemma RunWritesContent(s: Store, dst: string, fileName: string, content: string)
    ensures var (s', o) := WriteModFile(s, dst, fileName, content);
            o.Pass? ==>
              && JoinPath(dst, fileName) in s'.files
              && s'.files[JoinPath(dst, fileName)] == content
              && dst in s'.dirs
  {
    var (s', o) := WriteModFile(s, dst, fileName, content);
    if o.Pass? {
      assert "" + content == content;
    }
  }

  /**
   * The outcome of a run, in terms of the file system it starts from: the
   * empty `dst` never exists and `os.makedirs` refuses it, so it always fails;
   * `os.makedirs` fails on no other path; opening fails when the target is
   * (or has just become) a directory, or when `dst` is a regular file; a
   * missing directory never makes the open fail, because it has just been made.
   */
  lemma RunOutcome(s: Store, dst: string, fileName: string, content: string)
    ensures WriteModFile(s, dst, fileName, content).1 ==
      if dst == [] then Fail(FileNotFound(dst))
      else if JoinPath(dst, fileName) in DirsAfterPrepare(s, dst) then Fail(IsADirectory(JoinPath(dst, fileName)))
      else if dst in s.files then Fail(NotADirectory(JoinPath(dst, fileName)))
      else Pass
  {
  }

  /** The existence test and `makedirs` touch only the directories, as `DirsAfterPrepare` says. */
  lemma PrepareFrame(s: Store, dst: string)
    ensures EnsureDir(s, dst).0 == Store(s.files, DirsAfterPrepare(s, dst))
    ensures EnsureDir(s, dst).1.Fail? <==> dst == []
  {
  }

  /** Opening changes at most the target file, which becomes empty. */
  lemma OpenFrame(s: Store, dir: string, fileName: string)
    ensures var (s', o) := OpenStep(s, dir, fileName);
            s'.dirs == s.dirs && s'.files == if o.Pass? then s.files[JoinPath(dir, fileName) := ""] else s.files
  {
  }

  /**
   * Nothing but the target file and `dst` changes: every other file keeps its
   * text, no file disappears, the only directory that may appear is `dst`, and
   * a failed run changes no file.
   */
  lemma RunFrame(s: Store, dst: string, fileName: string, content: string)
    ensures var (s', o) := WriteModFile(s, dst, fileName, content);
            && s'.dirs == DirsAfterPrepare(s, dst)
            && s'.files - {JoinPath(dst, fileName)} == s.files - {JoinPath(dst, fileName)}
            && (JoinPath(dst, fileName) in s'.files <==> JoinPath(dst, fileName) in s.files || o.Pass?)
            && (o.Fail? ==> s'.files == s.files)
  {
    var target := JoinPath(dst, fileName);
    PrepareFrame(s, dst);
    var prepared := EnsureDir(s, dst);
    if prepared.1.Pass? {
      OpenFrame(prepared.0, dst, fileName);
      var opening := OpenStep(prepared.0, dst, fileName);
      if opening.1.Pass? {
        var written := s.files[target := ""][target := "" + content];
        assert WriteModFile(s, dst, fileName, content).0 == Store(written, DirsAfterPrepare(s, dst));
        assert written - {target} == s.files - {target};
      }
    }
  }

  /** Running twice with the same arguments is the same as running once. */
  lemma RunIdempotent(s: Store, dst: string, fileName: string, content: string)
    ensures var once := WriteModFile(s, dst, fileName, content);
            WriteModFile(once.0, dst, fileName, content) == once
  {
    var once := WriteModFile(s, dst, fileName, content);
    RunFrame(s, dst, fileName, content);
    RunOutcome(s, dst, fileName, content);
    RunOutcome(once.0, dst, fileName, content);
    if once.1.Pass? {
      RunWritesContent(s, dst, fileName, content);
      var target := JoinPath(dst, fileName);
      var opening := OpenStep(once.0, dst, fileName);
      assert opening.0.files == once.0.files[target := ""];
      assert "" + content == content;
      assert WriteStep(opening.0, target, content).files == once.0.files;
    }
  }

  /**
   * The file is truncated, not appended to: what the target held before, or
   * whether it existed at all, makes no difference to the outcome or, when the
   * run completes, to the resulting file system.
   */
  lemma RunIgnoresPriorContent(s: Store, prior: string, dst: string, fileName: string, content: string)
    requires JoinPath(dst, fileName) != dst
    ensures var target := JoinPath(dst, fileName);
            var existing := WriteModFile(Store(s.files[target := prior], s.dirs), dst, fileName, content);
            var absent := WriteModFile(Store(s.files - {target}, s.dirs), dst, fileName, content);
            existing.1 == absent.1 && (existing.1.Pass? ==> existing.0 == absent.0)
  {
    var target := JoinPath(dst, fileName);
    var s1 := Store(s.files[target := prior], s.dirs);
    var s2 := Store(s.files - {target}, s.dirs);
    RunOutcome(s1, dst, fileName, content);
    RunOutcome(s2, dst, fileName, content);
    assert PathExists(s1, dst) == PathExists(s2, dst);
    assert (dst in s1.files) == (dst in s2.files);
    var e := WriteModFile(s1, dst, fileName, content);
    var a := WriteModFile(s2, dst, fileName, content);
    if e.1.Pass? {
      RunFrame(s1, dst, fileName, content);
      RunFrame(s2, dst, fileName, content);
      RunWritesContent(s1, dst, fileName, content);
      RunWritesContent(s2, dst, fileName, content);
      assert s1.files - {target} == s2.files - {target};
      assert e.0.files == a.0.files;
    }
  }

  /** A run keeps regular files and directories apart. */
  lemma RunPreservesValid(s: Store, dst: string, fileName: string, content: string)
    requires Valid(s)
    ensures Valid(WriteModFile(s, dst, fileName, content).0)
  {
    RunFrame(s, dst, fileName, content);
    RunOutcome(s, dst, fileName, content);
  }

  /**
   * A completed run of the generator leaves the module text in
   * `<dst>/<name>.mod`, whatever the file held before or whether it existed,
   * and `dst` is then a directory.
   */
  lemma GenerateWritesModFile(
    s: Store, name: string, dst: string, version: string, path: string,
    arnold: Option<string>, mtoa: Option<string>, custom: Option<string>
  )
    ensures var (s', o) := Generate(s, name, dst, version, path, arnold, mtoa, custom);
            o.Pass? ==>
              && ModFilePath(dst, name) in s'.files
              && s'.files[ModFilePath(dst, name)] == ModContent(name, version, path, arnold, mtoa, custom)
              && dst in s'.dirs
  {
    RunWritesContent(s, dst, ModFileName(name), ModContent(name, version, path, arnold, mtoa, custom));
  }

  /** Running the generator twice with the same arguments is the same as running it once. */
  lemma GenerateIdempotent(
    s: Store, name: string, dst: string, version: string, path: string,
    arnold: Option<string>, mtoa: Option<string>, custom: Option<string>
  )
    ensures var once := Generate(s, name, dst, version, path, arnold, mtoa, custom);
            Generate(once.0, name, dst, version, path, arnold, mtoa, custom) == once
  {
    RunIdempotent(s, dst, ModFileName(name), ModContent(name, version, path, arnold, mtoa, custom));
  }

  /** An empty destination fails at `os.makedirs`, whatever the file system holds. */
  lemma EmptyDestinationFails(
    s: Store, name: string, version: string, path: string,
    arnold: Option<string>, mtoa: Option<string>, custom: Option<string>
  )
    ensures Generate(s, name, "", version, path, arnold, mtoa, custom) == (s, Fail(FileNotFound("")))
  {
  }

  /** A destination that is a regular file fails the open, which names the joined path. */
  lemma FileDestinationExample()
    ensures Generate(Store(map["/etc/passwd" := "x"], {}), "foo", "/etc/passwd")
         == (Store(map["/etc/passwd" := "x"], {}), Fail(NotADirectory("/etc/passwd/foo.mod")))
  {
    var target := ModFilePath("/etc/passwd", "foo");
    assert target == "/etc/passwd" + "/" + "foo.mod";
    assert target == "/etc/passwd/foo.mod";
    var none: set<string> := {};
    assert target !in none;
  }

  /** Preparing `/tmp/out` in an empty file system and opening `foo.mod` there. */
  lemma ExampleOpen()
    ensures EnsureDir(Store(map[], {}), "/tmp/out") == (Store(map[], {"/tmp/out"}), Pass)
    ensures OpenStep(Store(map[], {"/tmp/out"}), "/tmp/out", ModFileName("foo"))
         == (Store(map["/tmp/out/foo.mod" := ""], {"/tmp/out"}), Pass)
    ensures ModFilePath("/tmp/out", "foo") == "/tmp/out/foo.mod"
  {
    var target := ModFilePath("/tmp/out", "foo");
    assert target == "/tmp/out" + "/" + "foo.mod";
    assert target == "/tmp/out/foo.mod";
    assert target !in {"/tmp/out"} by { assert |target| != |"/tmp/out"|; }
    var none: set<string> := {};
    assert |"/tmp/out"| > 0 && !PathExists(Store(map[], none), "/tmp/out");
    assert none + {"/tmp/out"} == {"/tmp/out"};
  }

  /**
   * Only a name and a destination given, into an empty file system: the
   * directory is made and the file holds the header with the default version
   * and path and nothing else.
   */
  lemma GenerateDefaultsExample()
    ensures Generate(Store(map[], {}), "foo", "/tmp/out")
         == (Store(map["/tmp/out/foo.mod" := "+ foo any .\n"], {"/tmp/out"}), Pass)
  {
    ExampleOpen();
    var truncated := Store(map["/tmp/out/foo.mod" := ""], {"/tmp/out"});
    assert ModContent("foo") == Header("foo", "any", ".") + "" + "" + "";
    assert "" + ModContent("foo") == "+ foo any .\n";
    assert WriteStep(truncated, "/tmp/out/foo.mod", ModContent("foo"))
        == Store(map["/tmp/out/foo.mod" := "+ foo any .\n"], {"/tmp/out"});
  }

  /** The text for `foo` with an Arnold plugin path: the header, then its directive line. */
  lemma ArnoldExampleContent()
    ensures ModContent("foo", arnold := Some("/plugins/arnold"))
         == "+ foo any .\n" + "ARNOLD_PLUGIN_PATH +:= /plugins/arnold\n"
  {
    var content := ModContent("foo", arnold := Some("/plugins/arnold"));
    assert content == Header("foo", "any", ".") + Directive("ARNOLD_PLUGIN_PATH", "/plugins/arnold") + "" + "";
    assert Header("foo", "any", ".") == "+ foo any .\n";
    assert Directive("ARNOLD_PLUGIN_PATH", "/plugins/arnold") == "ARNOLD_PLUGIN_PATH +:= /plugins/arnold\n";
  }

  /** The same run with an Arnold plugin path: it adds its one directive line after the header. */
  lemma GenerateArnoldExample()
    ensures Generate(Store(map[], {}), "foo", "/tmp/out", arnold := Some("/plugins/arnold"))
         == (Store(map["/tmp/out/foo.mod" := "+ foo any .\n" + "ARNOLD_PLUGIN_PATH +:= /plugins/arnold\n"], {"/tmp/out"}), Pass)
  {
    ExampleOpen();
    ArnoldExampleContent();
    var content := ModContent("foo", arnold := Some("/plugins/arnold"));
    assert "" + content == content;
    var truncated := Store(map["/tmp/out/foo.mod" := ""], {"/tmp/out"});
    assert WriteStep(truncated, "/tmp/out/foo.mod", content) == Store(map["/tmp/out/foo.mod" := content], {"/tmp/out"});
  }
}
