/** BuilderApp's build controller: the busy flag guarding against a second
    build, the Build button, the log pane and the dialogs, as _on_build_clicked
    and _run_build change them. The PyInstaller process is an outcome given as
    a parameter: the lines it printed and its exit code, or the exception it
    raised. */
module Controller {
  import opened BuildForm
  import opened Validator
  import Composer
  import Artifact
  import Decimal

  /** A message box: mb.showinfo or mb.showerror with a title and a text. */
  datatype Dialog = Info(title: string, text: string) | Error(title: string, text: string)

  /** One insertion into the log pane. The command echo keeps the argument
      list it shows; its shell-quoted rendering is not modelled. */
  datatype LogEntry = Text(text: string) | CommandEcho(args: seq<string>)

  /** What a click on Build did. */
  datatype ClickResult = AlreadyBuilding | InvalidInput(problem: Problem) | Started

  /** What `pip install pyinstaller` did. */
  datatype InstallResult = Installed | InstallFailed(reason: string)

  /** How the PyInstaller process went: it exited with a code after printing
      its output; it could not be launched because the executable was
      missing, and the automatic install then ran; or an exception with the
      given text was raised after the given output. */
  datatype RunOutcome =
    | Exited(output: seq<string>, code: int)
    | NotFound(install: InstallResult)
    | Raised(printed: seq<string>, message: string)

  /** The Build button's idle label for the platform.system() value. */
  function ButtonLabel(systemName: string): string {
    if systemName == "Windows" then "Build .exe with PyInstaller"
    else if systemName == "Darwin" then "Build .app with PyInstaller"
    else "Build executable with PyInstaller"
  }

  /** The Build button's label while a build runs. */
  const BusyLabel := "Building..."

  /** Each platform gets its own idle label, and none of them is the busy
      label, so the button's text tells whether a build is running. */
  lemma {:induction false} ButtonLabels(systemName: string)
    ensures ButtonLabel(systemName) != BusyLabel
    ensures ButtonLabel(systemName) == "Build .exe with PyInstaller" <==> systemName == "Windows"
    ensures ButtonLabel(systemName) == "Build .app with PyInstaller" <==> systemName == "Darwin"
  {
    var w, m := "Build .exe with PyInstaller", "Build .app with PyInstaller";
    var idle := ButtonLabel(systemName);
    assert w[7] != m[7] && w[7] != "Build executable with PyInstaller"[7] && m[7] != "Build executable with PyInstaller"[7];
    assert |BusyLabel| != |idle|;
  }

  /** The process's output lines, each appended to the log as it is read. */
  function OutputLog(lines: seq<string>): (r: seq<LogEntry>)
    ensures |r| == |lines|
    ensures forall k :: 0 <= k < |lines| ==> r[k] == Text(lines[k])
  {
    if lines == [] then [] else OutputLog(lines[..|lines| - 1]) + [Text(lines[|lines| - 1])]
  }

  /** What a run logs after echoing its command, given the artifact hint it
      would log on success. */
  function OutcomeLog(outcome: RunOutcome, hint: string): seq<LogEntry> {
    match outcome
    case Exited(output, code) =>
      OutputLog(output) +
      (if code == 0 then
         [Text("\nBuild completed successfully.\n")] + (if hint != [] then [Text(hint + "\n")] else [])
       else [Text("\nBuild failed with exit code " + Decimal.IntString(code) + ".\n")])
    case NotFound(install) =>
      [Text("PyInstaller not found. Installing...\n")] +
      (match install
       case Installed => [Text("PyInstaller installed. Please click Build again.\n")]
       case InstallFailed(reason) => [Text("Failed to install PyInstaller: " + reason + "\n")])
    case Raised(printed, message) =>
      OutputLog(printed) + [Text("Unexpected error: " + message + "\n")]
  }

  /** The message box a run ends with, if any. */
  function OutcomeDialogs(outcome: RunOutcome): seq<Dialog> {
    match outcome
    case Exited(_, code) =>
      if code == 0 then [Info("Success", "Build completed successfully.")]
      else [Error("Build failed", "PyInstaller exited with code " + Decimal.IntString(code) + ".")]
    case NotFound(install) =>
      if install.Installed? then []
      else [Error("Missing dependency", "Failed to install PyInstaller automatically.")]
    case Raised(_, message) => [Error("Error", "Unexpected error: " + message)]
  }

  /** Everything a run logs: the command it launches, then its outcome. The
      artifact hint is computed from the form as it reads when the run
      ends, with the name resolved when the command was composed. */
  function RunLog(f: Form, later: Form, sysPlatform: string, systemName: string, exe: string, cwd: string,
                  outcome: RunOutcome): seq<LogEntry> {
    [Text("Command:\n"), CommandEcho(Composer.CommandLine(f, sysPlatform, exe))] +
    OutcomeLog(outcome, Artifact.ArtifactHint(systemName, later.outDir, cwd, ResolvedName(f), later.onefile))
  }

  /** The log of a run is the command echo followed by the outcome's lines,
      for the command and name the composer returned. */
  lemma {:induction false} RunLogParts(f: Form, later: Form, sysPlatform: string, systemName: string, exe: string, cwd: string,
                    outcome: RunOutcome, args: seq<string>, name: string, before: seq<LogEntry>, after: seq<LogEntry>)
    requires args == Composer.CommandLine(f, sysPlatform, exe) && name == ResolvedName(f)
    requires after == before + [Text("Command:\n"), CommandEcho(args)] +
      OutcomeLog(outcome, Artifact.ArtifactHint(systemName, later.outDir, cwd, name, later.onefile))
    ensures after == before + RunLog(f, later, sysPlatform, systemName, exe, cwd, outcome)
  {
  }

  class BuildController {
    /** _currently_building. */
    var building: bool
    /** Whether the Build button accepts clicks, and its label. */
    var buttonEnabled: bool
    var buttonText: string
    /** The log pane's contents and the message boxes shown so far. */
    var log: seq<LogEntry>
    var dialogs: seq<Dialog>
    /** platform.system() on the machine the window runs on. */
    const systemName: string

    /** The button is disabled and says "Building..." exactly while a build
        is in progress, and shows the idle label otherwise. */
    predicate Valid()
      reads this
    {
      buttonEnabled == !building &&
      buttonText == (if building then BusyLabel else ButtonLabel(systemName))
    }

    /** A new window: not building, the button enabled with its idle label,
        an empty log and no dialogs. */
    constructor (systemName: string)
      ensures Valid() && !building && buttonEnabled
      ensures this.systemName == systemName && log == [] && dialogs == []
    {
      this.systemName := systemName;
      building := false;
      buttonEnabled := true;
      buttonText := ButtonLabel(systemName);
      log := [];
      dialogs := [];
    }

    /** _on_build_clicked. A click while a build runs only shows the
        "Build in progress" box. Otherwise the flag is raised and the form
        validated: a rejected form lowers the flag again and shows the
        validator's message; an accepted one clears the log, writes the
        start line and disables the button, and the run is started by the
        caller with RunBuild. */
    method OnBuildClicked(f: Form, sysPlatform: string, fs: FileSystem, makedirs: MakedirsOutcome)
      returns (r: ClickResult)
      requires Valid()
      modifies this
      ensures Valid()
      ensures old(building) ==>
        r == AlreadyBuilding && building && log == old(log) &&
        dialogs == old(dialogs) + [Info("Build in progress", "Please wait for the current build to finish.")]
      ensures !old(building) && ValidateInputs(f, sysPlatform, fs, makedirs).Rejected? ==>
        var p := ValidateInputs(f, sysPlatform, fs, makedirs).problem;
        r == InvalidInput(p) && !building && log == old(log) &&
        dialogs == old(dialogs) + [Error("Invalid input", Message(p))]
      ensures !old(building) && ValidateInputs(f, sysPlatform, fs, makedirs).Accepted? ==>
        r == Started && building && log == [Text("Starting build...\n\n")] && dialogs == old(dialogs)
    {
      if building {
        dialogs := dialogs + [Info("Build in progress", "Please wait for the current build to finish.")];
        return AlreadyBuilding;
      }
      building := true;

      var verdict := ValidateInputs(f, sysPlatform, fs, makedirs);
      var (ok, err) := AsPair(verdict);
      if !ok {
        building := false;
        dialogs := dialogs + [Error("Invalid input", err)];
        return InvalidInput(verdict.problem);
      }

      log := [Text("Starting build...\n\n")];
      buttonEnabled := false;
      buttonText := BusyLabel;
      r := Started;
    }

    /** _run_build, from the form as the run reads it when it starts (f)
        and when it ends (later). It logs the command, then the process's
        output and outcome, shows at most one message box, and in every case
        lowers the flag and restores the button. */
    method RunBuild(f: Form, later: Form, sysPlatform: string, exe: string, cwd: string, outcome: RunOutcome)
      requires Valid()
      modifies this
      ensures Valid() && !building && buttonEnabled
      ensures log == old(log) + RunLog(f, later, sysPlatform, systemName, exe, cwd, outcome)
      ensures dialogs == old(dialogs) + OutcomeDialogs(outcome)
    {
      var args, name := Composer.ComposeCommand(f, sysPlatform, exe);
      log := log + [Text("Command:\n"), CommandEcho(args)];
      ReportOutcome(outcome, later, cwd, name);
      RunLogParts(f, later, sysPlatform, systemName, exe, cwd, outcome, args, name, old(log), log);
      building := false;
      buttonEnabled := true;
      buttonText := ButtonLabel(systemName);
    }

    /** The part of _run_build after the command echo: the process's output
        and the outcome's log lines and message box. */
    method ReportOutcome(outcome: RunOutcome, later: Form, cwd: string, name: string)
      modifies this
      ensures log == old(log) + OutcomeLog(outcome, Artifact.ArtifactHint(systemName, later.outDir, cwd, name, later.onefile))
      ensures dialogs == old(dialogs) + OutcomeDialogs(outcome)
      ensures building == old(building) && buttonEnabled == old(buttonEnabled) && buttonText == old(buttonText)
    {
      match outcome {
        case Exited(output, code) => ReportExit(output, code, later, cwd, name);
        case NotFound(install) => ReportMissingTool(install);
        case Raised(printed, message) => ReportCrash(printed, message);
      }
    }

    /** The process ran: its output is streamed into the log, then success
        (with the artifact hint, computed from the form as it reads now) or
        the exit code is reported. */
    method ReportExit(output: seq<string>, code: int, later: Form, cwd: string, name: string)
      modifies this
      ensures log == old(log) + OutcomeLog(Exited(output, code), Artifact.ArtifactHint(systemName, later.outDir, cwd, name, later.onefile))
      ensures dialogs == old(dialogs) + OutcomeDialogs(Exited(output, code))
      ensures building == old(building) && buttonEnabled == old(buttonEnabled) && buttonText == old(buttonText)
    {
      ghost var before := log;
      AppendOutput(output);
      ghost var streamed := log;
      if code == 0 {
        ReportSuccess(later, cwd, name);
      } else {
        ReportFailure(code);
      }
      Composer.Associate(before, OutputLog(output), log[|streamed|..]);
    }

    /** Exit code 0: the success line, the artifact hint, computed from the
        form as it reads now, and the "Success" box. */
    method ReportSuccess(later: Form, cwd: string, name: string)
      modifies this
      ensures var hint := Artifact.ArtifactHint(systemName, later.outDir, cwd, name, later.onefile);
        log == old(log) + ([Text("\nBuild completed successfully.\n")] + (if hint != [] then [Text(hint + "\n")] else []))
      ensures dialogs == old(dialogs) + [Info("Success", "Build completed successfully.")]
      ensures building == old(building) && buttonEnabled == old(buttonEnabled) && buttonText == old(buttonText)
    {
      log := log + [Text("\nBuild completed successfully.\n")];
      var hint := Artifact.ArtifactHint(systemName, later.outDir, cwd, name, later.onefile);
      if hint != [] {
        log := log + [Text(hint + "\n")];
      }
      dialogs := dialogs + [Info("Success", "Build completed successfully.")];
    }

    /** A non-zero exit code: it is reported in the log and in a
        "Build failed" box. */
    method ReportFailure(code: int)
      modifies this
      ensures log == old(log) + [Text("\nBuild failed with exit code " + Decimal.IntString(code) + ".\n")]
      ensures dialogs == old(dialogs) + [Error("Build failed", "PyInstaller exited with code " + Decimal.IntString(code) + ".")]
      ensures building == old(building) && buttonEnabled == old(buttonEnabled) && buttonText == old(buttonText)
    {
      log := log + [Text("\nBuild failed with exit code " + Decimal.IntString(code) + ".\n")];
      dialogs := dialogs + [Error("Build failed", "PyInstaller exited with code " + Decimal.IntString(code) + ".")];
    }

    /** The `except FileNotFoundError` handler: the automatic install of
        PyInstaller is attempted and its result logged; only a failed install
        shows a message box. */
    method ReportMissingTool(install: InstallResult)
      modifies this
      ensures log == old(log) + OutcomeLog(NotFound(install), "")
      ensures dialogs == old(dialogs) + OutcomeDialogs(NotFound(install))
      ensures building == old(building) && buttonEnabled == old(buttonEnabled) && buttonText == old(buttonText)
    {
      log := log + [Text("PyInstaller not found. Installing...\n")];
      match install {
        case Installed =>
          log := log + [Text("PyInstaller installed. Please click Build again.\n")];
        case InstallFailed(reason) =>
          log := log + [Text("Failed to install PyInstaller: " + reason + "\n")];
          dialogs := dialogs + [Error("Missing dependency", "Failed to install PyInstaller automatically.")];
      }
    }

    /** The `except Exception` handler, after whatever output was streamed
        before the exception. */
    method ReportCrash(printed: seq<string>, message: string)
      modifies this
      ensures log == old(log) + OutcomeLog(Raised(printed, message), "")
      ensures dialogs == old(dialogs) + OutcomeDialogs(Raised(printed, message))
      ensures building == old(building) && buttonEnabled == old(buttonEnabled) && buttonText == old(buttonText)
    {
      AppendOutput(printed);
      log := log + [Text("Unexpected error: " + message + "\n")];
      dialogs := dialogs + [Error("Error", "Unexpected error: " + message)];
    }

    /** The streaming loop: each line the process prints is appended to the
        log as it arrives. */
    method AppendOutput(lines: seq<string>)
      modifies this
      ensures log == old(log) + OutputLog(lines)
      ensures building == old(building) && buttonEnabled == old(buttonEnabled)
      ensures buttonText == old(buttonText) && dialogs == old(dialogs)
    {
      for i := 0 to |lines|
        invariant log == old(log) + OutputLog(lines[..i])
        invariant building == old(building) && buttonEnabled == old(buttonEnabled)
        invariant buttonText == old(buttonText) && dialogs == old(dialogs)
      {
        assert lines[..i + 1][..i] == lines[..i];
        log := log + [Text(lines[i])];
      }
      assert lines[..|lines|] == lines;
    }
  }

  /** One click followed, when it started a build, by the run: in every case
      the controller ends idle with its button enabled. A started build
      leaves the start line, the run's log and the run's message box; a
      rejected form leaves the log as it was and adds the validator's
      message in an "Invalid input" box. */
  method ClickAndRun(c: BuildController, f: Form, sysPlatform: string, fs: FileSystem, makedirs: MakedirsOutcome,
                     exe: string, cwd: string, outcome: RunOutcome)
    returns (r: ClickResult)
    requires c.Valid() && !c.building
    modifies c
    ensures c.Valid() && !c.building && c.buttonEnabled
    ensures !r.AlreadyBuilding?
    ensures r.Started? <==> ValidateInputs(f, sysPlatform, fs, makedirs).Accepted?
    ensures r.Started? ==> c.dialogs == old(c.dialogs) + OutcomeDialogs(outcome)
    ensures r.Started? ==>
      c.log == [Text("Starting build...\n\n")] + RunLog(f, f, sysPlatform, c.systemName, exe, cwd, outcome)
    ensures r.InvalidInput? ==>
      r.problem == ValidateInputs(f, sysPlatform, fs, makedirs).problem && c.log == old(c.log) &&
      c.dialogs == old(c.dialogs) + [Error("Invalid input", Message(r.problem))]
  {
    r := c.OnBuildClicked(f, sysPlatform, fs, makedirs);
    if r.Started? {
      c.RunBuild(f, f, sysPlatform, exe, cwd, outcome);
    }
  }
}
