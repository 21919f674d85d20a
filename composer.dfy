/** BuilderApp._compose_command: the PyInstaller command line for a form.
    The command starts with the interpreter running PyInstaller on the
    script, then carries the options in a fixed order. The options are
    described by a record, rendered to tokens and read back by a parser,
    so that what the command says can be stated without looking at how it
    is built. */
module Composer {
  import opened PathText
  import opened BuildForm

  /** The options after the script path, one field per PyInstaller flag. */
  datatype Options = Options(
    clean: bool,
    onefile: bool,
    windowed: bool,
    name: Option<string>,
    icon: Option<string>,
    bundleId: Option<string>,
    distPath: Option<string>,
    workPath: Option<string>)

  /** A flag without a value, present or absent. */
  function SwitchTokens(on: bool, flag: string): seq<string> {
    if on then [flag] else []
  }

  /** A flag followed by its value, present or absent. */
  function ValueTokens(v: Option<string>, flag: string): seq<string> {
    if v.Some? then [flag, v.value] else []
  }

  /** The value-carrying flags, in the order the source appends them. */
  function RenderValued(o: Options): seq<string> {
    ValueTokens(o.name, "--name") +
    (ValueTokens(o.icon, "--icon") +
    (ValueTokens(o.bundleId, "--osx-bundle-identifier") +
    (ValueTokens(o.distPath, "--distpath") +
     ValueTokens(o.workPath, "--workpath"))))
  }

  /** All options as tokens: the three switches, then the valued flags. */
  function Render(o: Options): seq<string> {
    SwitchTokens(o.clean, "--clean") +
    (SwitchTokens(o.onefile, "--onefile") +
    (SwitchTokens(o.windowed, "--windowed") +
     RenderValued(o)))
  }

  /** Reads an optional switch off the front of ts. */
  function TakeSwitch(ts: seq<string>, flag: string): (r: (bool, seq<string>))
    ensures ts == SwitchTokens(r.0, flag) + r.1
  {
    if ts != [] && ts[0] == flag then (true, ts[1..]) else (false, ts)
  }

  /** Reads an optional flag and its value off the front of ts. */
  function TakeValue(ts: seq<string>, flag: string): (r: (Option<string>, seq<string>))
    ensures ts == ValueTokens(r.0, flag) + r.1
  {
    if |ts| >= 2 && ts[0] == flag then (Some(ts[1]), ts[2..]) else (None, ts)
  }

  /** Reads options back from the tokens after the script path, accepting
      each flag only in its own place in the order and taking the token
      after a valued flag as its value, whatever it looks like. Tokens that
      do not fit are refused. */
  function ParseOptions(ts: seq<string>): Option<Options> {
    var (clean, t1) := TakeSwitch(ts, "--clean");
    var (onefile, t2) := TakeSwitch(t1, "--onefile");
    var (windowed, t3) := TakeSwitch(t2, "--windowed");
    var (name, t4) := TakeValue(t3, "--name");
    var (icon, t5) := TakeValue(t4, "--icon");
    var (bundleId, t6) := TakeValue(t5, "--osx-bundle-identifier");
    var (distPath, t7) := TakeValue(t6, "--distpath");
    var (workPath, t8) := TakeValue(t7, "--workpath");
    if t8 == [] then Some(Options(clean, onefile, windowed, name, icon, bundleId, distPath, workPath))
    else None
  }

  /** Neither the remainder is empty nor does it start with flag. */
  predicate NotLedBy(ts: seq<string>, flag: string) {
    ts == [] || ts[0] != flag
  }

  lemma {:induction false} TakeSwitchRendered(on: bool, flag: string, rest: seq<string>)
    requires NotLedBy(rest, flag)
    ensures TakeSwitch(SwitchTokens(on, flag) + rest, flag) == (on, rest)
  {
    var ts := SwitchTokens(on, flag) + rest;
    if on {
      assert ts[0] == flag && ts[1..] == rest;
    } else {
      assert ts == rest;
    }
  }

  lemma {:induction false} TakeValueRendered(v: Option<string>, flag: string, rest: seq<string>)
    requires NotLedBy(rest, flag)
    ensures TakeValue(ValueTokens(v, flag) + rest, flag) == (v, rest)
  {
    var ts := ValueTokens(v, flag) + rest;
    if v.Some? {
      assert ts[0] == flag && ts[1] == v.value && ts[2..] == rest;
    } else {
      assert ts == rest;
    }
  }

  /** Parsing undoes rendering: every option record survives the trip
      through tokens unchanged. */
  lemma {:induction false} ParseRender(o: Options)
    ensures ParseOptions(Render(o)) == Some(o)
  {
    var t8: seq<string> := [];
    var t7 := ValueTokens(o.workPath, "--workpath");
    var t6 := ValueTokens(o.distPath, "--distpath") + t7;
    var t5 := ValueTokens(o.bundleId, "--osx-bundle-identifier") + t6;
    var t4 := ValueTokens(o.icon, "--icon") + t5;
    var t3 := ValueTokens(o.name, "--name") + t4;
    var t2 := SwitchTokens(o.windowed, "--windowed") + t3;
    var t1 := SwitchTokens(o.onefile, "--onefile") + t2;
    assert t3 == RenderValued(o);
    assert Render(o) == SwitchTokens(o.clean, "--clean") + t1;
    assert t7 == ValueTokens(o.workPath, "--workpath") + t8;
    TakeValueRendered(o.workPath, "--workpath", t8);
    TakeValueRendered(o.distPath, "--distpath", t7);
    TakeValueRendered(o.bundleId, "--osx-bundle-identifier", t6);
    TakeValueRendered(o.icon, "--icon", t5);
    TakeValueRendered(o.name, "--name", t4);
    TakeSwitchRendered(o.windowed, "--windowed", t3);
    TakeSwitchRendered(o.onefile, "--onefile", t2);
    TakeSwitchRendered(o.clean, "--clean", t1);
  }

  /** Rendering undoes parsing: a token list the parser accepts is exactly
      the rendering of what it read, so no two option records share a
      token list. */
  lemma {:induction false} RenderParse(ts: seq<string>)
    requires ParseOptions(ts).Some?
    ensures Render(ParseOptions(ts).value) == ts
  {
    var r1 := TakeSwitch(ts, "--clean");
    var r2 := TakeSwitch(r1.1, "--onefile");
    var r3 := TakeSwitch(r2.1, "--windowed");
    var r4 := TakeValue(r3.1, "--name");
    var r5 := TakeValue(r4.1, "--icon");
    var r6 := TakeValue(r5.1, "--osx-bundle-identifier");
    var r7 := TakeValue(r6.1, "--distpath");
    var r8 := TakeValue(r7.1, "--workpath");
    assert r8.1 == [];
    assert ParseOptions(ts).value == Options(r1.0, r2.0, r3.0, r4.0, r5.0, r6.0, r7.0, r8.0);
    assert r7.1 == ValueTokens(r8.0, "--workpath") + [];
    assert ValueTokens(r8.0, "--workpath") + [] == ValueTokens(r8.0, "--workpath");
  }

  /** A non-empty string as an option value; the source skips empty ones. */
  function NonEmpty(s: string): Option<string> {
    if s == [] then None else Some(s)
  }

  /** The bundle identifier the source passes: only on darwin, only when
      the entry exists, and only when its trimmed text is non-empty. */
  function BundleOption(sysPlatform: string, bundleEntry: Option<string>): Option<string> {
    if sysPlatform == "darwin" && bundleEntry.Some? then NonEmpty(Strip(bundleEntry.value)) else None
  }

  /** A directory beneath a non-empty output directory, or none. */
  function DirOption(outDir: string, sub: string): Option<string> {
    if outDir != [] then Some(Join(outDir, sub)) else None
  }

  /** The options for already trimmed entries: the three check boxes, the
      name and icon when non-empty, the bundle identifier as BundleOption
      says, and dist/build under a non-empty output directory. */
  function OptionsFor(clean: bool, onefile: bool, windowed: bool, name: string, icon: string,
                      sysPlatform: string, bundleEntry: Option<string>, outDir: string): Options {
    Options(
      clean, onefile, windowed,
      NonEmpty(name),
      NonEmpty(icon),
      BundleOption(sysPlatform, bundleEntry),
      DirOption(outDir, "dist"),
      DirOption(outDir, "build"))
  }

  /** The options a form asks for on a platform: its check boxes, its
      resolved name, its trimmed icon and output directory, and its
      bundle-identifier entry. */
  function RequestedOptions(f: Form, sysPlatform: string): Options {
    OptionsFor(f.clean, f.onefile, f.windowed, ResolvedName(f), Strip(f.icon), sysPlatform, f.bundleId, Strip(f.outDir))
  }

  /** The interpreter running PyInstaller on the trimmed script path. */
  function Prefix(f: Form, exe: string): seq<string> {
    [exe, "-m", "PyInstaller", Strip(f.source)]
  }

  /** The command for a form: the prefix, then the requested options. */
  function CommandLine(f: Form, sysPlatform: string, exe: string): seq<string> {
    Prefix(f, exe) + Render(RequestedOptions(f, sysPlatform))
  }

  /** The composer as the source writes it: trim the entries, resolve the
      name, start from the prefix and append the flags section by section.
      It yields CommandLine and the resolved name. */
  method ComposeCommand(f: Form, sysPlatform: string, exe: string) returns (args: seq<string>, name: string)
    ensures args == CommandLine(f, sysPlatform, exe)
    ensures name == ResolvedName(f)
  {
    var src := Strip(f.source);
    name := ResolvedName(f);
    var icon := Strip(f.icon);
    var outDir := Strip(f.outDir);

    args := [exe, "-m", "PyInstaller", src];
    ghost var prefix := args;
    args := AppendCommonSwitches(args, f.clean, f.onefile, f.windowed);
    ghost var s1 := args;
    args := AppendNameAndIcon(args, name, icon);
    ghost var s2 := args;
    args := AppendBundleId(args, sysPlatform, f.bundleId);
    ghost var s3 := args;
    args := AppendOutputDirs(args, outDir);
    SectionsRender(prefix, RequestedOptions(f, sysPlatform), s1, s2, s3, args);
  }

  /** Common flags, first part: each ticked switch in turn. */
  method AppendCommonSwitches(args0: seq<string>, clean: bool, onefile: bool, windowed: bool)
    returns (args: seq<string>)
    ensures args == args0 + Switches(clean, onefile, windowed)
  {
    args := args0;
    if clean {
      args := args + ["--clean"];
    }
    if onefile {
      args := args + ["--onefile"];
    }
    if windowed {
      args := args + ["--windowed"];
    }
  }

  /** Common flags, second part: the name and the icon when non-empty. */
  method AppendNameAndIcon(args0: seq<string>, name: string, icon: string) returns (args: seq<string>)
    ensures args == args0 + (ValueTokens(NonEmpty(name), "--name") + ValueTokens(NonEmpty(icon), "--icon"))
  {
    args := args0;
    if name != [] {
      args := args + ["--name", name];
    }
    if icon != [] {
      args := args + ["--icon", icon];
    }
  }

  /** The macOS bundle identifier: on darwin with the entry present, its
      trimmed text when non-empty. */
  method AppendBundleId(args0: seq<string>, sysPlatform: string, bundleEntry: Option<string>)
    returns (args: seq<string>)
    ensures args == args0 + ValueTokens(BundleOption(sysPlatform, bundleEntry), "--osx-bundle-identifier")
  {
    args := args0;
    if sysPlatform == "darwin" && bundleEntry.Some? {
      var bid := Strip(bundleEntry.value);
      if bid != [] {
        args := args + ["--osx-bundle-identifier", bid];
      }
    }
  }

  /** The output directories: dist and build beneath a non-empty output
      directory, appended together. */
  method AppendOutputDirs(args0: seq<string>, outDir: string) returns (args: seq<string>)
    ensures args == args0 +
      (ValueTokens(DirOption(outDir, "dist"), "--distpath") + ValueTokens(DirOption(outDir, "build"), "--workpath"))
  {
    args := args0;
    if outDir != [] {
      var distDir := Join(outDir, "dist");
      var buildDir := Join(outDir, "build");
      args := args + ["--distpath", distDir, "--workpath", buildDir];
    }
  }

  /** The sections appended one after another give the rendered options. */
  lemma {:induction false} SectionsRender(prefix: seq<string>, o: Options, s1: seq<string>, s2: seq<string>, s3: seq<string>, s4: seq<string>)
    requires s1 == prefix + Switches(o.clean, o.onefile, o.windowed)
    requires s2 == s1 + (ValueTokens(o.name, "--name") + ValueTokens(o.icon, "--icon"))
    requires s3 == s2 + ValueTokens(o.bundleId, "--osx-bundle-identifier")
    requires s4 == s3 + (ValueTokens(o.distPath, "--distpath") + ValueTokens(o.workPath, "--workpath"))
    ensures s4 == prefix + Render(o)
  {
    var sw := Switches(o.clean, o.onefile, o.windowed);
    var ni := ValueTokens(o.name, "--name") + ValueTokens(o.icon, "--icon");
    var bid := ValueTokens(o.bundleId, "--osx-bundle-identifier");
    var dirs := ValueTokens(o.distPath, "--distpath") + ValueTokens(o.workPath, "--workpath");
    RenderSplit(o);
    Associate(ValueTokens(o.name, "--name"), ValueTokens(o.icon, "--icon"), bid + dirs);
    assert RenderValued(o) == ni + (bid + dirs);
    Associate(prefix + sw + ni, bid, dirs);
    Associate(prefix + sw, ni, bid + dirs);
    Associate(prefix, sw, ni + (bid + dirs));
  }

  /** Concatenation is associative. */
  lemma {:induction false} Associate<T>(x: seq<T>, y: seq<T>, z: seq<T>)
    ensures x + (y + z) == x + y + z
  {
  }

  /** The command starts with the interpreter, "-m", "PyInstaller" and the
      trimmed script path, and what follows reads back as exactly the
      options the form asks for. */
  lemma {:induction false} CommandEncodesRequest(f: Form, sysPlatform: string, exe: string)
    ensures var cmd := CommandLine(f, sysPlatform, exe);
      |cmd| >= 4 && cmd[..4] == [exe, "-m", "PyInstaller", Strip(f.source)] &&
      ParseOptions(cmd[4..]) == Some(RequestedOptions(f, sysPlatform))
  {
    var cmd := CommandLine(f, sysPlatform, exe);
    assert cmd[4..] == Render(RequestedOptions(f, sysPlatform));
    ParseRender(RequestedOptions(f, sysPlatform));
  }

  /** The place of each switch in the source's order; 3 for any other token. */
  function SwitchRank(t: string): nat {
    if t == "--clean" then 0
    else if t == "--onefile" then 1
    else if t == "--windowed" then 2
    else 3
  }

  /** How many of the three switches are set. */
  function SwitchCount(clean: bool, onefile: bool, windowed: bool): nat {
    (if clean then 1 else 0) + (if onefile then 1 else 0) + (if windowed then 1 else 0)
  }

  /** Only switches, each once, in rank order. */
  predicate RankOrdered(block: seq<string>) {
    (forall t :: t in block ==> SwitchRank(t) < 3) &&
    (forall i, j :: 0 <= i < j < |block| ==> SwitchRank(block[i]) < SwitchRank(block[j]))
  }

  /** Each switch is in the block exactly when its box is ticked. */
  predicate SwitchesMatch(block: seq<string>, clean: bool, onefile: bool, windowed: bool) {
    (clean <==> "--clean" in block) && (onefile <==> "--onefile" in block) && (windowed <==> "--windowed" in block)
  }

  /** The three switches as rendered, in the source's order. */
  function Switches(clean: bool, onefile: bool, windowed: bool): seq<string> {
    SwitchTokens(clean, "--clean") + (SwitchTokens(onefile, "--onefile") + SwitchTokens(windowed, "--windowed"))
  }

  /** The rendered switches are the ones that are set, each once, in rank
      order. */
  lemma {:induction false} SwitchBlock(clean: bool, onefile: bool, windowed: bool)
    ensures |Switches(clean, onefile, windowed)| == SwitchCount(clean, onefile, windowed)
    ensures RankOrdered(Switches(clean, onefile, windowed))
    ensures SwitchesMatch(Switches(clean, onefile, windowed), clean, onefile, windowed)
  {
    var block := Switches(clean, onefile, windowed);
    var c, o, w := SwitchTokens(clean, "--clean"), SwitchTokens(onefile, "--onefile"), SwitchTokens(windowed, "--windowed");
    assert SwitchRank("--clean") == 0 && SwitchRank("--onefile") == 1 && SwitchRank("--windowed") == 2;
    assert forall t :: t in block <==> t in c || t in o || t in w;
  }

  /** The middle and the end of a three-part concatenation. */
  lemma {:induction false} Parts(p: seq<string>, m: seq<string>, r: seq<string>)
    ensures (p + (m + r))[|p|..|p| + |m|] == m
    ensures (p + (m + r))[|p| + |m|..] == r
  {
  }

  /** Rendered options are the switch block followed by the valued flags. */
  lemma {:induction false} RenderSplit(o: Options)
    ensures Render(o) == Switches(o.clean, o.onefile, o.windowed) + RenderValued(o)
  {
    var a, b, c, v := SwitchTokens(o.clean, "--clean"), SwitchTokens(o.onefile, "--onefile"),
      SwitchTokens(o.windowed, "--windowed"), RenderValued(o);
    Associate(b, c, v);
    Associate(a, b + c, v);
  }

  /** After a four-token prefix, rendered options start with the switch
      block and continue with the valued flags. */
  lemma {:induction false} SwitchLayout(p: seq<string>, o: Options)
    requires |p| == 4
    ensures var cmd, sw := p + Render(o), Switches(o.clean, o.onefile, o.windowed);
      4 + |sw| <= |cmd| && cmd[4..4 + |sw|] == sw && cmd[4 + |sw|..] == RenderValued(o)
  {
    var sw, rv := Switches(o.clean, o.onefile, o.windowed), RenderValued(o);
    RenderSplit(o);
    assert p + Render(o) == p + (sw + rv);
    Parts(p, sw, rv);
  }

  /** With a name, the valued flags start with "--name" and the name. */
  lemma {:induction false} NameLayout(o: Options)
    requires o.name.Some?
    ensures |RenderValued(o)| >= 2 && RenderValued(o)[0] == "--name" && RenderValued(o)[1] == o.name.value
  {
    var e, g, h, i := ValueTokens(o.icon, "--icon"), ValueTokens(o.bundleId, "--osx-bundle-identifier"),
      ValueTokens(o.distPath, "--distpath"), ValueTokens(o.workPath, "--workpath");
    assert RenderValued(o) == ["--name", o.name.value] + (e + (g + (h + i)));
  }

  /** With both directories, the last four tokens are --distpath and
      --workpath with their values. */
  lemma {:induction false} DirsLayout(p: seq<string>, o: Options)
    requires o.distPath.Some? && o.workPath.Some?
    ensures var cmd := p + Render(o);
      |cmd| >= 4 && cmd[|cmd| - 4..] == ["--distpath", o.distPath.value, "--workpath", o.workPath.value]
  {
    var a, b, c := SwitchTokens(o.clean, "--clean"), SwitchTokens(o.onefile, "--onefile"), SwitchTokens(o.windowed, "--windowed");
    var d, e, g := ValueTokens(o.name, "--name"), ValueTokens(o.icon, "--icon"), ValueTokens(o.bundleId, "--osx-bundle-identifier");
    var h, i := ValueTokens(o.distPath, "--distpath"), ValueTokens(o.workPath, "--workpath");
    assert p + Render(o) == p + (a + (b + (c + (d + (e + (g + (h + i)))))));
    Associate(g, h, i);
    Associate(e, g, h + i);
    Associate(d, e + g, h + i);
    Associate(c, d + (e + g), h + i);
    Associate(b, c + (d + (e + g)), h + i);
    Associate(a, b + (c + (d + (e + g))), h + i);
    Associate(p, a + (b + (c + (d + (e + g)))), h + i);
    EndOf(p + (a + (b + (c + (d + (e + g))))), h + i);
  }

  /** The switch and name layout for any four-token prefix and options. */
  lemma {:induction false} OptionsLayout(p: seq<string>, o: Options)
    requires |p| == 4
    ensures var cmd, k := p + Render(o), SwitchCount(o.clean, o.onefile, o.windowed);
      4 + k <= |cmd| &&
      RankOrdered(cmd[4..4 + k]) &&
      SwitchesMatch(cmd[4..4 + k], o.clean, o.onefile, o.windowed) &&
      (o.name.Some? ==> 4 + k + 2 <= |cmd| && cmd[4 + k] == "--name" && cmd[4 + k + 1] == o.name.value)
  {
    var cmd, sw := p + Render(o), Switches(o.clean, o.onefile, o.windowed);
    SwitchBlock(o.clean, o.onefile, o.windowed);
    SwitchLayout(p, o);
    if o.name.Some? {
      NameLayout(o);
      var rv := RenderValued(o);
      assert cmd[4 + |sw|..] == rv;
      assert cmd[4 + |sw|] == rv[0] && cmd[4 + |sw| + 1] == rv[1];
    }
  }

  /** Right after the script path come the switches the form sets and no
      others, each once, in the order --clean, --onefile, --windowed; then
      "--name" and the resolved name whenever that is non-empty. */
  lemma {:induction false} SwitchesInOrder(f: Form, sysPlatform: string, exe: string)
    ensures 4 + SwitchCount(f.clean, f.onefile, f.windowed) <= |CommandLine(f, sysPlatform, exe)|
    ensures RankOrdered(CommandLine(f, sysPlatform, exe)[4..4 + SwitchCount(f.clean, f.onefile, f.windowed)])
    ensures SwitchesMatch(CommandLine(f, sysPlatform, exe)[4..4 + SwitchCount(f.clean, f.onefile, f.windowed)], f.clean, f.onefile, f.windowed)
    ensures var cmd, k := CommandLine(f, sysPlatform, exe), SwitchCount(f.clean, f.onefile, f.windowed);
      ResolvedName(f) != [] ==> 4 + k + 2 <= |cmd| && cmd[4 + k] == "--name" && cmd[4 + k + 1] == ResolvedName(f)
  {
    var o := RequestedOptions(f, sysPlatform);
    var cmd, p := CommandLine(f, sysPlatform, exe), Prefix(f, exe);
    assert cmd == p + Render(o);
    assert o.clean == f.clean && o.onefile == f.onefile && o.windowed == f.windowed;
    assert ResolvedName(f) != [] ==> o.name == Some(ResolvedName(f));
    OptionsLayout(p, o);
  }

  /** The last tokens of a concatenation are its second part. */
  lemma {:induction false} EndOf(x: seq<string>, y: seq<string>)
    ensures |x + y| >= |y| && (x + y)[|x + y| - |y|..] == y
  {
  }

  /** --distpath and --workpath come as a pair: both are there exactly when
      the trimmed output directory is non-empty, then they are the last four
      tokens with dist and build beneath that directory; otherwise the
      command reads back with neither. */
  lemma {:induction false} OutputDirsPaired(f: Form, sysPlatform: string, exe: string)
    ensures var cmd, out := CommandLine(f, sysPlatform, exe), Strip(f.outDir);
      |cmd| >= 4 && ParseOptions(cmd[4..]).Some? &&
      var o := ParseOptions(cmd[4..]).value;
      (o.distPath.Some? <==> out != []) && (o.workPath.Some? <==> out != []) &&
      (out != [] ==>
        |cmd| >= 8 && cmd[|cmd| - 4..] == ["--distpath", Join(out, "dist"), "--workpath", Join(out, "build")])
  {
    CommandEncodesRequest(f, sysPlatform, exe);
    var o := RequestedOptions(f, sysPlatform);
    var out := Strip(f.outDir);
    if out != [] {
      assert o.distPath == Some(Join(out, "dist")) && o.workPath == Some(Join(out, "build"));
      DirsLayout(Prefix(f, exe), o);
    }
  }

  /** --osx-bundle-identifier is passed only on darwin, with the entry
      present and its trimmed text non-empty, and then that text is its
      value. */
  lemma {:induction false} BundleIdentifier(f: Form, sysPlatform: string, exe: string)
    ensures var cmd := CommandLine(f, sysPlatform, exe);
      |cmd| >= 4 && ParseOptions(cmd[4..]).Some? &&
      var o := ParseOptions(cmd[4..]).value;
      (o.bundleId.Some? <==> sysPlatform == "darwin" && f.bundleId.Some? && Strip(f.bundleId.value) != []) &&
      (o.bundleId.Some? ==> o.bundleId.value == Strip(f.bundleId.value))
  {
    CommandEncodesRequest(f, sysPlatform, exe);
  }

  /** The command names the application with the name the validator
      resolves, and passes a non-empty trimmed icon as given. */
  lemma {:induction false} NameAndIcon(f: Form, sysPlatform: string, exe: string)
    ensures var cmd := CommandLine(f, sysPlatform, exe);
      |cmd| >= 4 && ParseOptions(cmd[4..]).Some? &&
      var o := ParseOptions(cmd[4..]).value;
      (o.name.Some? <==> ResolvedName(f) != []) && (o.name.Some? ==> o.name.value == ResolvedName(f)) &&
      (o.icon.Some? <==> Strip(f.icon) != []) && (o.icon.Some? ==> o.icon.value == Strip(f.icon))
  {
    CommandEncodesRequest(f, sysPlatform, exe);
  }
}
