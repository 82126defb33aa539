# Maya module file generator, modelled in Dafny

The repository's one utility writes a Maya module description file
(`<name>.mod`) into a destination directory. The file has a header line
`+ <name> <version> <path>` and then up to three search-path directives,
`ARNOLD_PLUGIN_PATH +:= <value>`, `MTOA_TEMPLATES_PATH +:= <value>` and
`MAYA_CUSTOM_TEMPLATE_PATH +:= <value>`, in that order. A directive is written
only when its value is truthy. The destination directory is created when
missing, and the file is opened in truncating mode, so its content depends
only on the arguments.

The model has five modules:

- `Wrappers` (`wrappers.dfy`): `Option` for Python's `None`-or-string
  arguments, and `Outcome` for a run that completes or raises.
- `Text` (`text.dfy`): splitting a string into newline-terminated lines,
  joining lines, selecting lines by prefix, and the round trip
  `SplitLines(Join(ls)) == ls` for complete lines.
- `FileStore` (`file_store.dfy`): an abstract file system. It holds a map from
  path to file text and a set of directory paths. It models POSIX
  `os.path.join`, `os.path.exists`, `os.makedirs`, `open(..., "w")` and
  `f.write` as functions on a `Store` value. A `FileSystem` class has the same
  two fields, and its methods update them as those functions say.
- `MayaModule` (`maya_module.dfy`): the file text `ModContent`, with the
  source's default arguments (`version := "any"`, `path := "."`, optional
  values `None`). It also holds the run `Generate` as a function on a
  `Store`, and `GenerateModule`, the method that does the run on a
  `FileSystem`: existence test, `makedirs`, open, then one write per line,
  proved equal to `Generate`.
- `MayaModuleProperties` (`maya_module_properties.dfy`) and `MayaModuleRun`
  (`maya_module_run.dfy`): what the file text and a run are proved to satisfy.
  Most run lemmas are stated for `WriteModFile`, the file-system part of a
  run for any file name and text. `Generate` is `WriteModFile` applied to
  `<name>.mod` and `ModContent(...)`, so those lemmas hold for it too.

Python truthiness of an optional string (`if arnold_plugin_path:`) is
`Truthy(v)`: present and non-empty. `None` and `""` both produce no line.
The line-level facts assume that no argument contains a newline, since
values are written verbatim. `NewlineInValueAddsLine` shows what happens
otherwise.

## Model

| member | source | states |
|---|---|---|
| `MayaModule.Truthy` | scripts/generate_maya_module_file.py:103-107 | Python truthiness of an optional string: present and non-empty; no contract of its own, used by `OptionalDirective`, `DirectiveLines`, `DirectiveLineIff` |
| `MayaModule.Header` | scripts/generate_maya_module_file.py:102 | the header text `+ <name> <version> <path>\n`; no contract of its own, `HeaderIsLine`, `ContentStartsWithHeader` and `FirstLineIsHeader` state that it is one line and is the first line of the file |
| `MayaModule.DirectivePrefix` | scripts/generate_maya_module_file.py:104-108 | the start `KEY +:= ` of a directive line; no contract of its own, `PrefixSelectsSetting` states that it tells the three keys and the header apart |
| `MayaModule.Directive` | scripts/generate_maya_module_file.py:104-108 | the directive line `KEY +:= VALUE\n` with the value verbatim; no contract of its own, `DirectiveIsLine`, `EmbeddedDirective` and `DirectiveLineIff` state what it contributes to the file |
| `MayaModule.OptionalDirective` | scripts/generate_maya_module_file.py:103-108 | a directive contributes nothing exactly when its value is not truthy (`None` or empty); otherwise it is longer than `KEY +:= ` and ends with a newline |
| `MayaModule.ModContent` | scripts/generate_maya_module_file.py:102-108 | the serialiser: header, then the Arnold, MtoA and custom template directives whose values are truthy; no contract of its own, `ContentStartsWithHeader`, `ContentIsJoinOfLines`, `ContentLines`, `DirectiveLineIff`, `DefaultHeader` and the examples state its text |
| `MayaModule.ModFileName` | scripts/generate_maya_module_file.py:101 | the file name `<name>.mod`; no contract of its own, fixed by the examples (`ExampleOpen`, `FileDestinationExample`) |
| `MayaModule.ModFilePath` | scripts/generate_maya_module_file.py:101 | `os.path.join(dst, name + ".mod")`; no contract of its own, `JoinPathShape` states the shape of the joined path and `GenerateWritesModFile` that the text lands there |
| `MayaModule.EnsureDir` | scripts/generate_maya_module_file.py:95-96 | `makedirs` only when nothing exists at `dst`; no contract of its own, `PrepareFrame` states its effect and when it fails |
| `MayaModule.WriteModFile` | scripts/generate_maya_module_file.py:95-108 | the file-system part of a run for any file name and text; no contract of its own, the `Run*` lemmas state its outcome, frame, idempotence and truncation |
| `MayaModule.Generate` | scripts/generate_maya_module_file.py:72-108 | one run of `_generate_module` as a function on a snapshot; no contract of its own, `GenerateModule` is proved equal to it and the `Generate*` lemmas and examples state what it does |
| `MayaModule.DirectiveLines` | scripts/generate_maya_module_file.py:103-108 | a setting contributes one line when its value is truthy and none otherwise |
| `MayaModule.ModLines` | scripts/generate_maya_module_file.py:102-108 | the intended lines: the header first, and one more line per truthy value |
| `MayaModule.CountTruthy` | scripts/generate_maya_module_file.py:103-108 | at most three directive lines can be present |
| `MayaModule.WriteOptional` | scripts/generate_maya_module_file.py:103-108 | a guarded `f.write` appends the directive to the open file when the value is truthy, and nothing otherwise; directories do not change |
| `MayaModule.WriteContent` | scripts/generate_maya_module_file.py:102-108 | the sequence of writes into the freshly truncated file leaves exactly `ModContent` in it, and nothing else changes |
| `MayaModule.GenerateModule` | scripts/generate_maya_module_file.py:72-108 | the run on the file system object (existence test, `makedirs`, open in `"w"` mode, the writes) produces exactly the state and outcome that `Generate` gives |
| `MayaModuleProperties.HeaderIsLine` | scripts/generate_maya_module_file.py:102 | a header whose fields hold no newline is one complete line |
| `MayaModuleProperties.DirectiveIsLine` | scripts/generate_maya_module_file.py:104 | a directive whose value holds no newline is one complete line |
| `MayaModuleProperties.ContentStartsWithHeader` | scripts/generate_maya_module_file.py:101-102 | the file text always begins with the header `+ <name> <version> <path>\n`, whatever the optional values are |
| `MayaModuleProperties.DirectiveLinesAreLines` | scripts/generate_maya_module_file.py:103-108 | a setting whose value holds no newline contributes only complete lines |
| `MayaModuleProperties.ModLinesAreLines` | scripts/generate_maya_module_file.py:102-108 | with no newline in the inputs, every intended line is one newline-terminated line |
| `MayaModuleProperties.ContentIsJoinOfLines` | scripts/generate_maya_module_file.py:102-108 | the file text is the concatenation of header, Arnold, MtoA and custom template lines, in that order, and nothing else |
| `MayaModuleProperties.ContentLines` | scripts/generate_maya_module_file.py:102-108 | with no newline in the inputs, splitting the file gives exactly the intended lines; there are between one and four, one more than the number of truthy values, each newline-terminated |
| `MayaModuleProperties.FirstLineIsHeader` | scripts/generate_maya_module_file.py:102 | the first line is `+ <name> <version> <path>\n` whatever the optional values are |
| `MayaModuleProperties.DefaultHeader` | scripts/generate_maya_module_file.py:75-76 | with the defaults, the whole text is `+ <name> any .\n` |
| `MayaModuleProperties.PrefixSelectsSetting` | scripts/generate_maya_module_file.py:102-108 | a directive line starts with `KEY +:= ` for its own key only, and the header never starts like a directive |
| `MayaModuleProperties.SelectFromModLines` | scripts/generate_maya_module_file.py:102-108 | among the intended lines, those starting `KEY +:= ` are exactly that setting's own line, if any |
| `MayaModuleProperties.DirectiveLineIff` | scripts/generate_maya_module_file.py:103-108 | for each setting, the file has a `KEY +:= ` line if and only if the value is truthy. It then has exactly one, `KEY +:= VALUE\n` with the value verbatim; `None` and `""` give none |
| `MayaModuleProperties.EmbeddedDirective` | scripts/generate_maya_module_file.py:103-106 | a value holding a newline followed by another key's `KEY +:= ` prefix writes text identical to two directive lines |
| `MayaModuleProperties.NewlineExampleContent` | scripts/generate_maya_module_file.py:102-104 | an Arnold value holding a newline is written unescaped into the text |
| `MayaModuleProperties.NewlineInValueAddsLine` | scripts/generate_maya_module_file.py:102-108 | values are not escaped: an Arnold value holding a newline produces an extra line that reads as an MtoA directive |
| `FileStore.JoinPath` | scripts/generate_maya_module_file.py:101 | POSIX `os.path.join` of two components; no contract of its own, `JoinPathShape` states its cases |
| `FileStore.PathExists` | scripts/generate_maya_module_file.py:95 | `os.path.exists`: a non-empty path that names a file or a directory; no contract of its own, used by `FileSystem.Exists` and `RunOutcome` |
| `FileStore.MakeDirsStep` | scripts/generate_maya_module_file.py:96 | `os.makedirs` without `exist_ok`: fails on `""` and on an existing path, else adds the directory; no contract of its own, `FileSystem.MakeDirs` follows it and `PrepareFrame` states its effect in a run |
| `FileStore.JoinPathShape` | scripts/generate_maya_module_file.py:101 | the joined path ends with the file name; a relative name keeps the directory as prefix; for a directory not ending in `/` the path is `dir + "/" + name`; an absolute name replaces the directory |
| `FileStore.OpenStep` | scripts/generate_maya_module_file.py:101 | a successful open in `"w"` mode leaves the target an empty file |
| `FileStore.WriteStep` | scripts/generate_maya_module_file.py:102-108 | `f.write` appends the chunk to the target and changes nothing else; no contract of its own, `FileSystem.Write` follows it and `WriteContent` composes four of them |
| `FileStore.StepsPreserveValid` | scripts/generate_maya_module_file.py:95-108 | `makedirs`, open and write never make one path both a file and a directory |
| `FileStore.FileSystem.Exists` | scripts/generate_maya_module_file.py:95 | `os.path.exists`: true iff the path is non-empty and is a file or a directory |
| `FileStore.FileSystem.MakeDirs` | scripts/generate_maya_module_file.py:96 | `os.makedirs`: fails on the empty path or an existing path, else adds the directory |
| `FileStore.FileSystem.Open` | scripts/generate_maya_module_file.py:101 | opens `os.path.join(dir, name)` for writing: fails with `IsADirectory` if the target is a directory, with `NotADirectory` naming the target if `dir` is a file, with `FileNotFound` if `dir` is missing; else truncates it to empty |
| `FileStore.FileSystem.Write` | scripts/generate_maya_module_file.py:102-108 | `f.write` appends the chunk to the open file and changes nothing else |
| `FileStore.FileSystem.constructor` | scripts/generate_maya_module_file.py:72-80 | the file system object starts from a given snapshot |
| `MayaModuleRun.PrepareFrame` | scripts/generate_maya_module_file.py:95-96 | the existence test and `makedirs` change only the directories, adding `dst` when nothing exists there; they fail exactly when `dst` is empty |
| `MayaModuleRun.OpenFrame` | scripts/generate_maya_module_file.py:101 | opening changes no directory, and changes the files only on success, where the target becomes empty |
| `MayaModuleRun.RunWritesContent` | scripts/generate_maya_module_file.py:95-108 | after a completed run, the target file holds exactly the written text, whatever it held before, and `dst` is a directory |
| `MayaModuleRun.RunOutcome` | scripts/generate_maya_module_file.py:95-101 | the run fails with `FileNotFound` on any empty `dst`, with `IsADirectory` on a target that is (or has just become) a directory, with `NotADirectory` naming the target when `dst` is a regular file, and completes otherwise; a missing directory never fails the open |
| `MayaModuleRun.RunFrame` | scripts/generate_maya_module_file.py:95-108 | the directories afterwards are those before plus `dst` when it was missing; no file other than the target changes or disappears; the target exists afterwards iff it did before or the run completed; a failed run changes no file |
| `MayaModuleRun.RunIdempotent` | scripts/generate_maya_module_file.py:95-108 | running twice with the same arguments gives the same state and outcome as running once, also when the run fails |
| `MayaModuleRun.RunIgnoresPriorContent` | scripts/generate_maya_module_file.py:101 | the file is overwritten, not appended to: an earlier file there, with any text, or none at all, gives the same outcome and, on success, the same state |
| `MayaModuleRun.RunPreservesValid` | scripts/generate_maya_module_file.py:95-108 | a run never makes one path both a file and a directory |
| `MayaModuleRun.GenerateWritesModFile` | scripts/generate_maya_module_file.py:95-108 | after a completed run of the generator, `<dst>/<name>.mod` holds exactly `ModContent(...)`, and `dst` is a directory |
| `MayaModuleRun.GenerateIdempotent` | scripts/generate_maya_module_file.py:95-108 | running the generator twice with the same arguments is the same as running it once |
| `MayaModuleRun.EmptyDestinationFails` | scripts/generate_maya_module_file.py:95-96 | an empty destination makes the run fail with `FileNotFound("")` and leaves any file system unchanged |
| `MayaModuleRun.FileDestinationExample` | scripts/generate_maya_module_file.py:101 | a destination `/etc/passwd` that is a regular file fails with `NotADirectory("/etc/passwd/foo.mod")` and changes nothing |
| `MayaModuleRun.ExampleOpen` | scripts/generate_maya_module_file.py:95-101 | in an empty file system, `/tmp/out` is created and `/tmp/out/foo.mod` is opened empty |
| `MayaModuleRun.GenerateDefaultsExample` | scripts/generate_maya_module_file.py:72-102 | name `foo` and destination `/tmp/out` only: `/tmp/out` is created and `/tmp/out/foo.mod` holds exactly `+ foo any .\n` |
| `MayaModuleRun.ArnoldExampleContent` | scripts/generate_maya_module_file.py:102-104 | with an Arnold path, the text is the header followed by `ARNOLD_PLUGIN_PATH +:= /plugins/arnold\n` |
| `MayaModuleRun.GenerateArnoldExample` | scripts/generate_maya_module_file.py:95-104 | the same run with an Arnold path writes the header followed by its directive line |

## Left out

- `main` and its argument parsing (scripts/generate_maya_module_file.py:10-69) are library plumbing. The argparse defaults appear only as the default parameter values of `ModContent`, `Generate` and `GenerateModule`. Failures for missing required arguments are not modelled.
- The two `print` calls (lines 58 and 98) are console output and are not modelled.
- Directory creation adds only `dst` itself. Intermediate directories, permissions, and a parent component that is a regular file are not modelled. An already existing path is never passed to `makedirs`, because the existence test comes first.
- Opening checks `dst` as the directory of the new file. This is exact when the module name has no `/`. A name with `/` would put the file in a subdirectory of `dst`, or, for an absolute name, outside `dst` (the joined path is exact either way). Whether that directory exists is not modelled.
- Paths are compared as plain strings. There is no normalisation, so `a` and `a/` are different paths. `os.path.join` is the POSIX one; Windows joining is not modelled.
- Writes never fail in the model. A failure part-way through writing, which can leave a truncated file, is not modelled.
- Arguments are strings or `None`. Python truthiness of other argument types, character encoding and platform line endings are not modelled.
- Concurrent runs against the same path are not modelled.
