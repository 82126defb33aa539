/**
 * What the module file generator promises: the lines of the file, their order
 * and text, the directive present exactly when its value is truthy, and the
 * effect of a run on the file system (truncating overwrite, idempotence,
 * nothing else changed, the error cases).
 */
module MayaModuleProperties {
  import opened Wrappers
  import opened Text
  import opened FileStore
  import opened MayaModule

  /** An optional value without a newline in it. */
  predicate SingleLine(v: Option<string>) {
    v.None? || '\n' !in v.value
  }

  /** A header without newlines in its fields is one complete line. */
  lemma HeaderIsLine(name: string, version: string, path: string)
    requires '\n' !in name && '\n' !in version && '\n' !in path
    ensures IsLine(Header(name, version, path))
  {
    var h := Header(name, version, path);
    assert h[..|h| - 1] == "+ " + name + " " + version + " " + path;
  }

  /** A directive whose value has no newline is one complete line. */
  lemma DirectiveIsLine(s: Setting, value: string)
    requires '\n' !in value
    ensures IsLine(Directive(s.Key(), value))
  {
    var d := Directive(s.Key(), value);
    assert d[..|d| - 1] == DirectivePrefix(s.Key()) + value;
  }

  /** The module text is exactly its lines, header first, concatenated. */
  lemma ContentIsJoinOfLines(
    name: string, version: string, path: string,
    arnold: Option<string>, mtoa: Option<string>, custom: Option<string>
  )
    ensures ModContent(name, version, path, arnold, mtoa, custom)
         == Join(ModLines(name, version, path, arnold, mtoa, custom))
  {
    var h := Header(name, version, path);
    var l1 := DirectiveLines(ArnoldPluginPath, arnold);
    var l2 := DirectiveLines(MtoaTemplatesPath, mtoa);
    var l3 := DirectiveLines(MayaCustomTemplatePath, custom);
    forall st: Setting, v: Option<string> ensures Join(DirectiveLines(st, v)) == OptionalDirective(st.Key(), v) {
      if Truthy(v) {
        assert Join([Directive(st.Key(), v.value)]) == Directive(st.Key(), v.value) + Join([]);
      }
    }
    assert Join([h]) == h + Join([]);
    JoinAppend([h], l1);
    JoinAppend([h] + l1, l2);
    JoinAppend([h] + l1 + l2, l3);
  }

  /**
   * When no value contains a newline, the file consists of exactly the
   * expected lines: the header, then one line per truthy value in the order
   * Arnold, MtoA, custom template; between one and four lines, every one
   * newline-terminated.
   */
  lemma ContentLines(
    name: string, version: string, path: string,
    arnold: Option<string>, mtoa: Option<string>, custom: Option<string>
  )
    requires '\n' !in name && '\n' !in version && '\n' !in path
    requires SingleLine(arnold) && SingleLine(mtoa) && SingleLine(custom)
    ensures SplitLines(ModContent(name, version, path, arnold, mtoa, custom))
         == ModLines(name, version, path, arnold, mtoa, custom)
    ensures var n := |SplitLines(ModContent(name, version, path, arnold, mtoa, custom))|;
            n == 1 + CountTruthy(arnold, mtoa, custom) && 1 <= n <= 4
    ensures AllLines(SplitLines(ModContent(name, version, path, arnold, mtoa, custom)))
  {
    var ls := ModLines(name, version, path, arnold, mtoa, custom);
    ModLinesAreLines(name, version, path, arnold, mtoa, custom);
    ContentIsJoinOfLines(name, version, path, arnold, mtoa, custom);
    SplitJoin(ls);
  }

  /** The file starts with the header line, whatever the optional values hold. */
  lemma ContentStartsWithHeader(
    name: string, version: string, path: string,
    arnold: Option<string>, mtoa: Option<string>, custom: Option<string>
  )
    ensures StartsWith(ModContent(name, version, path, arnold, mtoa, custom), Header(name, version, path))
  {
    var h := Header(name, version, path);
    var content := ModContent(name, version, path, arnold, mtoa, custom);
    assert content[..|h|] == h;
  }

  /** Every line the file is meant to have is one newline-terminated line when no value holds a newline. */
  lemma ModLinesAreLines(
    name: string, version: string, path: string,
    arnold: Option<string>, mtoa: Option<string>, custom: Option<string>
  )
    requires '\n' !in name && '\n' !in version && '\n' !in path
    requires SingleLine(arnold) && SingleLine(mtoa) && SingleLine(custom)
    ensures AllLines(ModLines(name, version, path, arnold, mtoa, custom))
  {
    var h := Header(name, version, path);
    var l1 := DirectiveLines(ArnoldPluginPath, arnold);
    var l2 := DirectiveLines(MtoaTemplatesPath, mtoa);
    var l3 := DirectiveLines(MayaCustomTemplatePath, custom);
    HeaderIsLine(name, version, path);
    assert AllLines([h]);
    DirectiveLinesAreLines(ArnoldPluginPath, arnold);
    DirectiveLinesAreLines(MtoaTemplatesPath, mtoa);
    DirectiveLinesAreLines(MayaCustomTemplatePath, custom);
    AllLinesAppend([h], l1);
    AllLinesAppend([h] + l1, l2);
    AllLinesAppend([h] + l1 + l2, l3);
  }

  /** A setting's directive, when present, is one complete line if its value holds no newline. */
  lemma DirectiveLinesAreLines(st: Setting, v: Option<string>)
    requires SingleLine(v)
    ensures AllLines(DirectiveLines(st, v))
  {
    if Truthy(v) {
      DirectiveIsLine(st, v.value);
    }
  }

  /** The first line of the file is always the header, whatever the optional values hold. */
  lemma FirstLineIsHeader(
    name: string, version: string, path: string,
    arnold: Option<string>, mtoa: Option<string>, custom: Option<string>
  )
    requires '\n' !in name && '\n' !in version && '\n' !in path
    ensures var ls := SplitLines(ModContent(name, version, path, arnold, mtoa, custom));
            |ls| > 0 && ls[0] == "+ " + name + " " + version + " " + path + "\n"
  {
    var h := Header(name, version, path);
    var content := ModContent(name, version, path, arnold, mtoa, custom);
    var rest := content[|h|..];
    assert content == h + rest;
    HeaderIsLine(name, version, path);
    FirstLineOfLine(h, rest);
  }

  /** With the default version and path the header reads `+ <name> any .`. */
  lemma DefaultHeader(name: string)
    ensures ModContent(name) == "+ " + name + " any .\n"
  {
    assert ModContent(name) == Header(name, "any", ".") + "" + "" + "";
  }

  /** Directive prefixes tell the settings apart, and no header starts like a directive. */
  lemma PrefixSelectsSetting(s1: Setting, s2: Setting, name: string, version: string, path: string, value: string)
    ensures StartsWith(Directive(s2.Key(), value), DirectivePrefix(s1.Key())) <==> s1 == s2
    ensures !StartsWith(Header(name, version, path), DirectivePrefix(s1.Key()))
  {
    var p := DirectivePrefix(s1.Key());
    var d := Directive(s2.Key(), value);
    assert Header(name, version, path)[0] == '+' != p[0];
    if s1 != s2 {
      var k := if {s1, s2} == {ArnoldPluginPath, MayaCustomTemplatePath}
                  || {s1, s2} == {ArnoldPluginPath, MtoaTemplatesPath} then 0 else 1;
      assert p[k] != d[k];
    } else {
      assert d == p + value + "\n";
    }
  }

  /** Among a setting's own lines, those with a given directive prefix. */
  lemma SelectDirectiveLines(s1: Setting, s2: Setting, v: Option<string>)
    ensures LinesWithPrefix(DirectiveLines(s2, v), DirectivePrefix(s1.Key()))
         == if s1 == s2 then DirectiveLines(s2, v) else []
  {
    if Truthy(v) {
      PrefixSelectsSetting(s1, s2, "", "", "", v.value);
      var ls := DirectiveLines(s2, v);
      assert ls[1..] == [];
    }
  }

  /** Selecting by prefix from a first line followed by three groups of lines. */
  lemma {:induction false} SelectFromParts(p: string, h: string, l1: seq<string>, l2: seq<string>, l3: seq<string>)
    ensures LinesWithPrefix([h] + l1 + l2 + l3, p)
         == LinesWithPrefix([h], p) + LinesWithPrefix(l1, p) + LinesWithPrefix(l2, p) + LinesWithPrefix(l3, p)
  {
    var a := [h] + l1;
    var b := a + l2;
    LinesWithPrefixAppend([h], l1, p);
    LinesWithPrefixAppend(a, l2, p);
    LinesWithPrefixAppend(b, l3, p);
    var s0, s1, s2, s3 := LinesWithPrefix([h], p), LinesWithPrefix(l1, p), LinesWithPrefix(l2, p), LinesWithPrefix(l3, p);
    calc {
      LinesWithPrefix(b + l3, p);
      LinesWithPrefix(b, p) + s3;
      LinesWithPrefix(a, p) + s2 + s3;
      s0 + s1 + s2 + s3;
    }
  }


  /** Selecting the lines of one setting from the expected lines of the file. */
  lemma SelectFromModLines(
    st: Setting,
    name: string, version: string, path: string,
    arnold: Option<string>, mtoa: Option<string>, custom: Option<string>
  )
    ensures LinesWithPrefix(ModLines(name, version, path, arnold, mtoa, custom), DirectivePrefix(st.Key()))
         == DirectiveLines(st, st.Pick(arnold, mtoa, custom))
  {
    var p := DirectivePrefix(st.Key());
    var h := Header(name, version, path);
    var l1 := DirectiveLines(ArnoldPluginPath, arnold);
    var l2 := DirectiveLines(MtoaTemplatesPath, mtoa);
    var l3 := DirectiveLines(MayaCustomTemplatePath, custom);
    var ls := ModLines(name, version, path, arnold, mtoa, custom);
    assert ls == [h] + l1 + l2 + l3;
    SelectFromParts(p, h, l1, l2, l3);
    PrefixSelectsSetting(st, st, name, version, path, "");
    assert LinesWithPrefix([h], p) == [];
    SelectDirectiveLines(st, ArnoldPluginPath, arnold);
    SelectDirectiveLines(st, MtoaTemplatesPath, mtoa);
    SelectDirectiveLines(st, MayaCustomTemplatePath, custom);
    var selected := [] + LinesWithPrefix(l1, p) + LinesWithPrefix(l2, p) + LinesWithPrefix(l3, p);
    assert LinesWithPrefix(ls, p) == selected;
    match st
    case ArnoldPluginPath => assert selected == [] + l1 + [] + [];
    case MtoaTemplatesPath => assert selected == [] + [] + l2 + [];
    case MayaCustomTemplatePath => assert selected == [] + [] + [] + l3;
  }

  /**
   * For each setting, the file holds a line starting `KEY +:= ` exactly when
   * its value is truthy, and then exactly one, `KEY +:= VALUE` with the value
   * verbatim; an absent or empty value produces none.
   */
  lemma DirectiveLineIff(
    st: Setting,
    name: string, version: string, path: string,
    arnold: Option<string>, mtoa: Option<string>, custom: Option<string>
  )
    requires '\n' !in name && '\n' !in version && '\n' !in path
    requires SingleLine(arnold) && SingleLine(mtoa) && SingleLine(custom)
    ensures LinesWithPrefix(SplitLines(ModContent(name, version, path, arnold, mtoa, custom)), DirectivePrefix(st.Key()))
         == DirectiveLines(st, st.Pick(arnold, mtoa, custom))
  {
    ContentLines(name, version, path, arnold, mtoa, custom);
    SelectFromModLines(st, name, version, path, arnold, mtoa, custom);
  }

  /**
   * Values are written without escaping: a newline inside a value starts a new
   * line, here one that reads as an MtoA directive though no MtoA value was given.
   */
  lemma NewlineInValueAddsLine()
    ensures SplitLines(ModContent("foo", arnold := Some("x\nMTOA_TEMPLATES_PATH +:= y")))
         == [Header("foo", "any", "."), Directive("ARNOLD_PLUGIN_PATH", "x"), Directive("MTOA_TEMPLATES_PATH", "y")]
  {
    var ls := [Header("foo", "any", "."), Directive(ArnoldPluginPath.Key(), "x"), Directive(MtoaTemplatesPath.Key(), "y")];
    NewlineExampleContent();
    HeaderIsLine("foo", "any", ".");
    DirectiveIsLine(ArnoldPluginPath, "x");
    DirectiveIsLine(MtoaTemplatesPath, "y");
    SplitJoin(ls);
  }

  /** A value holding a newline and a second directive's prefix writes two directive lines. */
  lemma {:induction false} EmbeddedDirective(k1: string, x: string, k2: string, y: string)
    ensures Directive(k1, x + "\n" + DirectivePrefix(k2) + y) == Directive(k1, x) + Directive(k2, y)
  {
    var p1 := DirectivePrefix(k1);
    var p2 := DirectivePrefix(k2);
    assert p1 + (x + "\n" + p2 + y) + "\n" == (p1 + x + "\n") + (p2 + y + "\n");
  }

  /** The text of the example above, as three lines joined. */
  lemma NewlineExampleContent()
    ensures ModContent("foo", arnold := Some("x\nMTOA_TEMPLATES_PATH +:= y"))
         == Join([Header("foo", "any", "."), Directive("ARNOLD_PLUGIN_PATH", "x"), Directive("MTOA_TEMPLATES_PATH", "y")])
  {
    var h := Header("foo", "any", ".");
    var a := Directive(ArnoldPluginPath.Key(), "x");
    var m := Directive(MtoaTemplatesPath.Key(), "y");
    var v := "x\nMTOA_TEMPLATES_PATH +:= y";
    assert v == "x" + "\n" + DirectivePrefix(MtoaTemplatesPath.Key()) + "y";
    EmbeddedDirective(ArnoldPluginPath.Key(), "x", MtoaTemplatesPath.Key(), "y");
    assert ModContent("foo", arnold := Some(v)) == h + (a + m) + "" + "";
    assert Join([m]) == m + "";
    assert Join([h, a, m]) == h + (a + (m + ""));
  }
}
