/** The builder's form as the widgets hand it over, and the application name
    both the validator and the command composer derive from it. */
module BuildForm {
  import opened PathText

  datatype Option<T> = None | Some(value: T)

  /** The raw (untrimmed) text of each entry and the state of each check
      box. The bundle-identifier entry exists only when the window was built
      on macOS ("darwin"), hence the Option. */
  datatype Form = Form(
    source: string,
    name: string,
    icon: string,
    outDir: string,
    onefile: bool,
    windowed: bool,
    clean: bool,
    bundleId: Option<string>)

  /** `entry_name.get().strip() or splitext(basename(src))[0]`, where src is
      the trimmed source entry. */
  function ResolvedName(f: Form): string {
    var typed := Strip(f.name);
    if typed != [] then typed else SplitextRoot(Basename(Strip(f.source)))
  }

  /** The resolved name is the trimmed name entry when that is non-empty;
      otherwise it is the source's file name without its extension, which
      holds no separator, begins the source's last component, and is never
      empty for a source that passes the ".py" test. */
  lemma {:induction false} NameResolution(f: Form)
    ensures Strip(f.name) != [] ==> ResolvedName(f) == Strip(f.name)
    ensures Strip(f.name) == [] ==>
      var base := Basename(Strip(f.source));
      '/' !in ResolvedName(f) && ResolvedName(f) == base[..|ResolvedName(f)|]
    ensures LowerEndsWith(Strip(f.source), ".py") ==> ResolvedName(f) != []
  {
    if Strip(f.name) == [] {
      var base := Basename(Strip(f.source));
      var root := SplitextRoot(base);
      BasenameShape(Strip(f.source));
      SplitextRootShape(base);
      forall k | 0 <= k < |root| ensures root[k] != '/' {
        assert root[k] == base[k];
      }
      if LowerEndsWith(Strip(f.source), ".py") {
        PythonScriptRootNonEmpty(Strip(f.source));
      }
    }
  }

  /** With an empty name entry, a basename holding a '.' after some other
      character loses its extension: the default name stops right before
      the basename's last '.'. */
  lemma {:induction false} DefaultNameDropsExtension(f: Form)
    requires Strip(f.name) == []
    ensures var base, r := Basename(Strip(f.source)), ResolvedName(f);
      (exists i, j :: 0 <= i < j < |base| && base[i] != '.' && base[j] == '.') ==>
        |r| < |base| && base[|r|] == '.' && forall k :: |r| < k < |base| ==> base[k] != '.'
  {
    var base := Basename(Strip(f.source));
    var r := SplitextRoot(base);
    assert ResolvedName(f) == r;
    BasenameShape(Strip(f.source));
    LastIndexOfShape(base, '/');
    assert LastIndexOf(base, '/') == -1;
    SplitextRootShape(base);
  }

  /** With an empty name entry, "app.py" resolves to "app". */
  lemma {:induction false} DefaultNameExample(f: Form)
    requires f.source == "app.py" && f.name == ""
    ensures ResolvedName(f) == "app"
  {
    var s := f.source;
    assert !IsSpace(s[0]) && !IsSpace(s[5]);
    StripUnpadded(s);
    assert Strip(f.name) == [];
    var p1, p2, p3, p4, p5 := s[..1], s[..2], s[..3], s[..4], s[..5];
    assert p5[..4] == p4 && p4[..3] == p3 && p3[..2] == p2 && p2[..1] == p1 && p1[..0] == [];
    assert LastIndexOf(p4, '.') == 3;
    assert LastIndexOf(p5, '.') == 3;
    assert LastIndexOf(s, '.') == 3;
    assert LastIndexOf(p1, '/') == -1;
    assert LastIndexOf(p2, '/') == -1;
    assert LastIndexOf(p3, '/') == -1;
    assert LastIndexOf(p4, '/') == -1;
    assert LastIndexOf(p5, '/') == -1;
    assert LastIndexOf(s, '/') == -1;
    assert Basename(s) == s;
    assert s[1] != '.';
    assert SplitextRoot(s) == p3;
  }
}
