/**
 * The Maya module description file (`.mod`) generator: the text of the file,
 * built from a module name, version and path and three optional search-path
 * values, and the run that creates the destination directory if needed and
 * writes that text into `<dst>/<name>.mod`, replacing whatever was there.
 */
module MayaModule {
  import opened Wrappers
  import opened Text
  import opened FileStore

  /** The three search-path settings a module file may extend, in file order. */
  datatype Setting = ArnoldPluginPath | MtoaTemplatesPath | MayaCustomTemplatePath {
    /** The environment variable the directive extends. */
    function Key(): string {
      match this
      case ArnoldPluginPath => "ARNOLD_PLUGIN_PATH"
      case MtoaTemplatesPath => "MTOA_TEMPLATES_PATH"
      case MayaCustomTemplatePath => "MAYA_CUSTOM_TEMPLATE_PATH"
    }

    /** The value supplied for this setting among the three optional arguments. */
    function Pick(arnold: Option<string>, mtoa: Option<string>, custom: Option<string>): Option<string> {
      match this
      case ArnoldPluginPath => arnold
      case MtoaTemplatesPath => mtoa
      case MayaCustomTemplatePath => custom
    }
  }

  /** Python truthiness of an optional string: present and non-empty. */
  predicate Truthy(v: Option<string>) {
    v.Some? && v.value != ""
  }

  /** The header line `+ <name> <version> <path>`. */
  function Header(name: string, version: string, path: string): string {
    "+ " + name + " " + version + " " + path + "\n"
  }

  /** The start of a directive line for `key`. */
  function DirectivePrefix(key: string): string {
    key + " +:= "
  }

  /** The directive line `KEY +:= VALUE`, the value written verbatim. */
  function Directive(key: string, value: string): string {
    DirectivePrefix(key) + value + "\n"
  }

  /** The directive line for a setting when its value is truthy, nothing otherwise. */
  function OptionalDirective(key: string, v: Option<string>): (r: string)
    ensures r == "" <==> !Truthy(v)
    ensures Truthy(v) ==> |r| > |DirectivePrefix(key)| && r[|r| - 1] == '\n'
  {
    if Truthy(v) then Directive(key, v.value) else ""
  }

  /** The file name the generator writes: the module name with `.mod` appended. */
  function ModFileName(name: string): string {
    name + ".mod"
  }

  /**
   * The text of the module file: the header, then the Arnold, MtoA and custom
   * template directives whose values are truthy, in that order.
   */
  function ModContent(
    name: string,
    version: string := "any",
    path: string := ".",
    arnold: Option<string> := None,
    mtoa: Option<string> := None,
    custom: Option<string> := None
  ): string
  {
    Header(name, version, path)
      + OptionalDirective(ArnoldPluginPath.Key(), arnold)
      + OptionalDirective(MtoaTemplatesPath.Key(), mtoa)
      + OptionalDirective(MayaCustomTemplatePath.Key(), custom)
  }

  /** The directive line a setting contributes, as a list of zero or one lines. */
  function DirectiveLines(s: Setting, v: Option<string>): (ls: seq<string>)
    ensures |ls| == if Truthy(v) then 1 else 0
  {
    if Truthy(v) then [Directive(s.Key(), v.value)] else []
  }

  /** The lines the module file is meant to consist of, in file order. */
  function ModLines(
    name: string, version: string, path: string,
    arnold: Option<string>, mtoa: Option<string>, custom: Option<string>
  ): (ls: seq<string>)
    ensures |ls| == 1 + CountTruthy(arnold, mtoa, custom)
    ensures ls[0] == Header(name, version, path)
  {
    [Header(name, version, path)]
      + DirectiveLines(ArnoldPluginPath, arnold)
      + DirectiveLines(MtoaTemplatesPath, mtoa)
      + DirectiveLines(MayaCustomTemplatePath, custom)
  }

  /** How many of the three optional values are truthy. */
  function CountTruthy(arnold: Option<string>, mtoa: Option<string>, custom: Option<string>): (n: nat)
    ensures n <= 3
  {
    (if Truthy(arnold) then 1 else 0)
      + (if Truthy(mtoa) then 1 else 0)
      + (if Truthy(custom) then 1 else 0)
  }

  /** Where the generator writes: `os.path.join(dst, name + ".mod")`. */
  function ModFilePath(dst: string, name: string): string {
    JoinPath(dst, ModFileName(name))
  }

  /** `dst` made a directory when nothing exists at that path yet. */
  function EnsureDir(s: Store, dst: string): (Store, Outcome<IoError>) {
    if PathExists(s, dst) then (s, Pass) else MakeDirsStep(s, dst)
  }

  /**
   * The file-system part of a run, for any text: create `dst` when nothing
   * exists there, open `dst`/`fileName` for writing, and write `content` into
   * the emptied file. Returns the new snapshot and whether the run completed.
   */
  function WriteModFile(s: Store, dst: string, fileName: string, content: string): (Store, Outcome<IoError>) {
    var prepared := EnsureDir(s, dst);
    if prepared.1.Fail? then prepared
    else
      var opening := OpenStep(prepared.0, dst, fileName);
      if opening.1.Fail? then opening
      else (WriteStep(opening.0, JoinPath(dst, fileName), content), Pass)
  }

  /** One run of the generator on a file system snapshot: `<dst>/<name>.mod` gets the module text. */
  function Generate(
    s: Store,
    name: string,
    dst: string,
    version: string := "any",
    path: string := ".",
    arnold: Option<string> := None,
    mtoa: Option<string> := None,
    custom: Option<string> := None
  ): (Store, Outcome<IoError>)
  {
    WriteModFile(s, dst, ModFileName(name), ModContent(name, version, path, arnold, mtoa, custom))
  }

  /** `if value: f.write(f"KEY +:= {value}\n")` on the open file `target`. */
  method WriteOptional(fs: FileSystem, target: string, key: string, v: Option<string>)
    requires target in fs.files
    modifies fs
    ensures target in fs.files
    ensures fs.files == old(fs.files)[target := old(fs.files[target]) + OptionalDirective(key, v)]
    ensures fs.dirs == old(fs.dirs)
  {
    if Truthy(v) {
      fs.Write(target, Directive(key, v.value));
    } else {
      assert old(fs.files[target]) + "" == old(fs.files[target]);
      assert fs.files == old(fs.files)[target := old(fs.files[target])];
    }
  }

  /** Writes the header and then each truthy directive into the emptied file `target`. */
  method WriteContent(
    fs: FileSystem, target: string,
    name: string, version: string, path: string,
    arnold: Option<string>, mtoa: Option<string>, custom: Option<string>
  )
    requires target in fs.files && fs.files[target] == ""
    modifies fs
    ensures fs.State() == WriteStep(old(fs.State()), target, ModContent(name, version, path, arnold, mtoa, custom))
  {
    ghost var header := Header(name, version, path);
    ghost var d1 := OptionalDirective(ArnoldPluginPath.Key(), arnold);
    ghost var d2 := OptionalDirective(MtoaTemplatesPath.Key(), mtoa);
    ghost var d3 := OptionalDirective(MayaCustomTemplatePath.Key(), custom);
    fs.Write(target, Header(name, version, path));
    assert fs.files[target] == header;
    WriteOptional(fs, target, ArnoldPluginPath.Key(), arnold);
    assert fs.files[target] == header + d1;
    WriteOptional(fs, target, MtoaTemplatesPath.Key(), mtoa);
    assert fs.files[target] == header + d1 + d2;
    WriteOptional(fs, target, MayaCustomTemplatePath.Key(), custom);
    ghost var content := ModContent(name, version, path, arnold, mtoa, custom);
    assert fs.files[target] == content;
    assert "" + content == content;
    assert fs.files == old(fs.files)[target := content];
  }

  /**
   * Writes the module file into `fs`: the directory is created if missing, the
   * file is opened in truncating mode, and the header and each truthy directive
   * are written one after another.
   */
  method GenerateModule(
    fs: FileSystem,
    name: string,
    dst: string,
    version: string := "any",
    path: string := ".",
    arnold: Option<string> := None,
    mtoa: Option<string> := None,
    custom: Option<string> := None
  ) returns (o: Outcome<IoError>)
    modifies fs
    ensures (fs.State(), o) == Generate(old(fs.State()), name, dst, version, path, arnold, mtoa, custom)
  {
    ghost var s0 := fs.State();
    var present := fs.Exists(dst);
    if !present {
      o := fs.MakeDirs(dst);
      if o.Fail? {
        return;
      }
    }
    assert (fs.State(), Pass) == EnsureDir(s0, dst);
    ghost var s1 := fs.State();
    var target;
    target, o := fs.Open(dst, ModFileName(name));
    if o.Fail? {
      return;
    }
    WriteContent(fs, target, name, version, path, arnold, mtoa, custom);
  }
}
