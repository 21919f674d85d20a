/** BuilderApp._validate_inputs: a fixed sequence of checks on the form,
    each of which can end validation with its own message. The file system
    is an oracle (which paths are files, which are directories) and the
    outcome of os.makedirs on a missing output directory is a parameter. */
module Validator {
  import opened PathText
  import opened BuildForm

  /** What os.path.isfile and os.path.isdir answer. */
  datatype FileSystem = FileSystem(files: set<string>, dirs: set<string>)

  /** What os.makedirs(out_dir, exist_ok=True) does when it is called: it
      succeeds, or raises an exception whose text is given. */
  datatype MakedirsOutcome = Created | MakedirsFailed(reason: string)

  /** Why validation failed, one case per early return of the source. */
  datatype Problem =
    | NoSource | MissingSource | NotPython | NoName
    | WindowsIcon | MacIcon | MissingIcon
    | MakedirsError(reason: string)

  /** The validator's result: success, or the first problem found. */
  datatype Verdict = Accepted | Rejected(problem: Problem)

  /** The exact text the source returns for each problem. */
  function Message(p: Problem): string {
    match p
    case NoSource => "Please select a Python file.\n"
    case MissingSource => "Selected Python file does not exist.\n"
    case NotPython => "Selected file must be a .py file.\n"
    case NoName => "Please provide an app name.\n"
    case WindowsIcon => "Windows icon must be a .ico file.\n"
    case MacIcon => "macOS icon must be a .icns file.\n"
    case MissingIcon => "Icon path does not exist.\n"
    case MakedirsError(reason) => "Failed to create output directory: " + reason + "\n"
  }

  /** The (ok, message) pair the source returns for a verdict: (True, "")
      on success, (False, message) otherwise, and the message is never empty
      on failure. */
  function AsPair(v: Verdict): (pair: (bool, string))
    ensures pair.0 <==> v.Accepted?
    ensures pair.0 <==> pair.1 == ""
  {
    match v
    case Accepted => (true, "")
    case Rejected(p) => (false, Message(p))
  }

  /** The validator as the source writes it: trimmed entries, early returns
      in a fixed order, success when nothing fails. */
  function ValidateInputs(f: Form, sysPlatform: string, fs: FileSystem, makedirs: MakedirsOutcome): Verdict {
    var src := Strip(f.source);
    if src == [] then Rejected(NoSource)
    else if src !in fs.files then Rejected(MissingSource)
    else if !LowerEndsWith(src, ".py") then Rejected(NotPython)
    else
      var name := ResolvedName(f);
      if name == [] then Rejected(NoName)
      else
        var icon := Strip(f.icon);
        if icon != [] && sysPlatform == "win32" && !LowerEndsWith(icon, ".ico") then Rejected(WindowsIcon)
        else if icon != [] && sysPlatform == "darwin" && !LowerEndsWith(icon, ".icns") then Rejected(MacIcon)
        else if icon != [] && icon !in fs.files then Rejected(MissingIcon)
        else
          var out := Strip(f.outDir);
          if out != [] && out !in fs.dirs && makedirs.MakedirsFailed? then Rejected(MakedirsError(makedirs.reason))
          else Accepted
  }

  /** One check of the validator: whether it fails, and with what. */
  datatype Check = Check(fails: bool, problem: Problem)

  /** The validator's checks as a list, in the order the source runs them.
      Each condition is stated on its own, without the guards that the
      earlier checks provide. */
  function Checks(f: Form, sysPlatform: string, fs: FileSystem, makedirs: MakedirsOutcome): seq<Check> {
    var src := Strip(f.source);
    var icon := Strip(f.icon);
    var out := Strip(f.outDir);
    [ Check(src == [], NoSource),
      Check(src !in fs.files, MissingSource),
      Check(!LowerEndsWith(src, ".py"), NotPython),
      Check(ResolvedName(f) == [], NoName),
      Check(icon != [] && sysPlatform == "win32" && !LowerEndsWith(icon, ".ico"), WindowsIcon),
      Check(icon != [] && sysPlatform == "darwin" && !LowerEndsWith(icon, ".icns"), MacIcon),
      Check(icon != [] && icon !in fs.files, MissingIcon),
      Check(out != [] && out !in fs.dirs && makedirs.MakedirsFailed?,
            MakedirsError(if makedirs.MakedirsFailed? then makedirs.reason else ""))
    ]
  }

  /** Short-circuit evaluation of a list of checks: the problem of the first
      failing check, or success when none fails. */
  function FirstFailure(cs: seq<Check>): (v: Verdict)
    ensures v.Accepted? <==> forall i :: 0 <= i < |cs| ==> !cs[i].fails
    ensures forall i :: 0 <= i < |cs| && cs[i].fails && (forall j :: 0 <= j < i ==> !cs[j].fails) ==>
      v == Rejected(cs[i].problem)
  {
    if cs == [] then Accepted
    else if cs[0].fails then Rejected(cs[0].problem)
    else FirstFailure(cs[1..])
  }

  /** Short-circuit evaluation of eight checks, written out. */
  lemma {:induction false} FirstFailureOfEight(cs: seq<Check>)
    requires |cs| == 8
    ensures FirstFailure(cs) ==
      if cs[0].fails then Rejected(cs[0].problem)
      else if cs[1].fails then Rejected(cs[1].problem)
      else if cs[2].fails then Rejected(cs[2].problem)
      else if cs[3].fails then Rejected(cs[3].problem)
      else if cs[4].fails then Rejected(cs[4].problem)
      else if cs[5].fails then Rejected(cs[5].problem)
      else if cs[6].fails then Rejected(cs[6].problem)
      else if cs[7].fails then Rejected(cs[7].problem)
      else Accepted
  {
    assert cs[8..] == [];
    assert cs[7..][1..] == cs[8..] && cs[6..][1..] == cs[7..] && cs[5..][1..] == cs[6..];
    assert cs[4..][1..] == cs[5..] && cs[3..][1..] == cs[4..] && cs[2..][1..] == cs[3..];
    assert cs[1..][1..] == cs[2..] && cs[0..] == cs;
  }

  /** The first seven checks: source, name and icon are acceptable. */
  predicate SourceAndIconAcceptable(f: Form, sysPlatform: string, fs: FileSystem) {
    var src, icon := Strip(f.source), Strip(f.icon);
    src != [] && src in fs.files && LowerEndsWith(src, ".py") && ResolvedName(f) != [] &&
    (icon != [] ==>
      (sysPlatform == "win32" ==> LowerEndsWith(icon, ".ico")) &&
      (sysPlatform == "darwin" ==> LowerEndsWith(icon, ".icns")) &&
      icon in fs.files)
  }

  /** The validator is exactly short-circuit evaluation of its checks in
      their fixed order. */
  lemma {:induction false} ValidateIsFirstFailure(f: Form, sysPlatform: string, fs: FileSystem, makedirs: MakedirsOutcome)
    ensures ValidateInputs(f, sysPlatform, fs, makedirs) == FirstFailure(Checks(f, sysPlatform, fs, makedirs))
  {
    FirstFailureOfEight(Checks(f, sysPlatform, fs, makedirs));
  }

  /** The validator's verdict in terms of SourceAndIconAcceptable: the
      source, name and icon checks decide first, the output directory
      last. */
  lemma {:induction false} ValidatorCases(f: Form, sysPlatform: string, fs: FileSystem, makedirs: MakedirsOutcome)
    ensures var out, v := Strip(f.outDir), ValidateInputs(f, sysPlatform, fs, makedirs);
      if !SourceAndIconAcceptable(f, sysPlatform, fs) then v.Rejected? && !v.problem.MakedirsError?
      else if out != [] && out !in fs.dirs && makedirs.MakedirsFailed? then v == Rejected(MakedirsError(makedirs.reason))
      else v == Accepted
  {
    var src, icon := Strip(f.source), Strip(f.icon);
    if src == [] || src !in fs.files || !LowerEndsWith(src, ".py") || ResolvedName(f) == [] {
    } else if icon != [] && sysPlatform == "win32" && !LowerEndsWith(icon, ".ico") {
    } else if icon != [] && sysPlatform == "darwin" && !LowerEndsWith(icon, ".icns") {
    } else if icon != [] && icon !in fs.files {
    } else {
      assert SourceAndIconAcceptable(f, sysPlatform, fs);
    }
  }

  /** Validation passes exactly when the source is an existing file with a
      ".py" name (in any case), the resolved name is non-empty, a non-empty
      icon has the platform's extension (".ico" on win32, ".icns" on darwin,
      any elsewhere) and exists as a file, and a non-empty output directory
      either exists or is created. */
  lemma {:induction false} OkIff(f: Form, sysPlatform: string, fs: FileSystem, makedirs: MakedirsOutcome)
    ensures var out := Strip(f.outDir);
      ValidateInputs(f, sysPlatform, fs, makedirs).Accepted? <==>
        SourceAndIconAcceptable(f, sysPlatform, fs) &&
        (out != [] && out !in fs.dirs ==> makedirs == Created)
  {
    ValidatorCases(f, sysPlatform, fs, makedirs);
  }

  /** The source checks come first, in order, whatever the other fields
      hold. */
  lemma {:induction false} SourceChecksFirst(f: Form, sysPlatform: string, fs: FileSystem, makedirs: MakedirsOutcome)
    ensures var src, v := Strip(f.source), ValidateInputs(f, sysPlatform, fs, makedirs);
      (src == [] ==> v == Rejected(NoSource)) &&
      (src != [] && src !in fs.files ==> v == Rejected(MissingSource)) &&
      (src != [] && src in fs.files && !LowerEndsWith(src, ".py") ==> v == Rejected(NotPython))
  {
  }

  /** The name check can never fire: once the source passes the ".py" test
      its file name without extension is non-empty, so "Please provide an
      app name." is never returned. */
  lemma {:induction false} NameCheckNeverFails(f: Form, sysPlatform: string, fs: FileSystem, makedirs: MakedirsOutcome)
    ensures ValidateInputs(f, sysPlatform, fs, makedirs) != Rejected(NoName)
  {
    if LowerEndsWith(Strip(f.source), ".py") {
      NameResolution(f);
    }
  }

  /** When the source is acceptable, a non-empty icon is judged by the
      platform's extension first and by its existence second; with no
      extension rule, on neither win32 nor darwin, only existence matters. */
  lemma {:induction false} IconRules(f: Form, sysPlatform: string, fs: FileSystem, makedirs: MakedirsOutcome)
    requires var src := Strip(f.source); src != [] && src in fs.files && LowerEndsWith(src, ".py")
    requires Strip(f.icon) != []
    ensures var icon, v := Strip(f.icon), ValidateInputs(f, sysPlatform, fs, makedirs);
      (sysPlatform == "win32" && !LowerEndsWith(icon, ".ico") ==> v == Rejected(WindowsIcon)) &&
      (sysPlatform == "darwin" && !LowerEndsWith(icon, ".icns") ==> v == Rejected(MacIcon)) &&
      (sysPlatform != "win32" && sysPlatform != "darwin" ==>
        (icon !in fs.files <==> v == Rejected(MissingIcon)))
  {
    NameResolution(f);
  }

  /** A passing verdict leaves a usable output directory: a non-empty one
      either existed already or os.makedirs created it. The makedirs error
      is reported, with its reason, exactly when the source, name and icon
      pass and a non-empty missing directory could not be created. */
  lemma {:induction false} OutputDirectory(f: Form, sysPlatform: string, fs: FileSystem, makedirs: MakedirsOutcome)
    ensures var out, v := Strip(f.outDir), ValidateInputs(f, sysPlatform, fs, makedirs);
      (v.Accepted? && out != [] ==> out in fs.dirs || makedirs == Created) &&
      ((v.Rejected? && v.problem.MakedirsError?) <==>
        (SourceAndIconAcceptable(f, sysPlatform, fs) && out != [] && out !in fs.dirs && makedirs.MakedirsFailed?)) &&
      (v.Rejected? && v.problem.MakedirsError? ==> makedirs == MakedirsFailed(v.problem.reason))
  {
    ValidatorCases(f, sysPlatform, fs, makedirs);
  }

  /** The two icon formats exclude each other: with a source that passes,
      a non-empty ".icns" icon is refused on win32 for its extension and a
      ".ico" icon on darwin, before either's existence is looked at. */
  lemma {:induction false} ForeignIconRefused(f: Form, sysPlatform: string, fs: FileSystem, makedirs: MakedirsOutcome)
    requires var src := Strip(f.source); src != [] && src in fs.files && LowerEndsWith(src, ".py")
    ensures var icon, v := Strip(f.icon), ValidateInputs(f, sysPlatform, fs, makedirs);
      (sysPlatform == "win32" && LowerEndsWith(icon, ".icns") ==> v == Rejected(WindowsIcon)) &&
      (sysPlatform == "darwin" && LowerEndsWith(icon, ".ico") ==> v == Rejected(MacIcon))
  {
    NameResolution(f);
    var icon := Strip(f.icon);
    var low := Lower(icon);
    if LowerEndsWith(icon, ".icns") {
      assert low[|low| - 1] == ".icns"[4];
    }
    if LowerEndsWith(icon, ".ico") {
      assert low[|low| - 1] == ".ico"[3];
    }
  }
}
