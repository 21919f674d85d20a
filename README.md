# Buildfy Converter: a Dafny model of the build front end

Buildfy Converter is a small desktop window that turns a Python script into
a stand-alone executable by running PyInstaller. The user picks a script,
an optional application name, an optional icon and an output directory.
They tick `--onefile`, `--windowed` and `--clean`, and on macOS they may type
a bundle identifier. Then they press Build.

This project models the logic behind that button, all of it in
`BuilderApp` in `main.py`:

- **Validation** (`_validate_inputs`). The checks run in a fixed order and the
  first one that fails is returned with its exact message. The file system is
  an oracle: the set of existing files and the set of existing directories.
  What `os.makedirs` does is a parameter.
- **Command composition** (`_compose_command`). This is a method that builds
  the argument list by appends, as the source does. It is proved equal to
  `CommandLine`, which is the fixed prefix followed by the rendering of an
  option record. A parser reads that rendering back, and the two are proved
  inverse in both directions. Which options the command carries is stated
  through the parsed record. Where a token sits, such as the switches right
  after the script path or the directory pair at the end, is stated on the
  token list itself.
- **Name resolution**. The validator and the composer share one definition:
  the stripped name entry, or else `splitext(basename(src))[0]`.
- **The artifact hint** (`_artifact_hint`) logged after a successful run.
- **The build controller**. This is a class holding `_currently_building`,
  the state and label of the Build button, the log pane and the message boxes
  shown. `_on_build_clicked` and `_run_build` are its methods. The
  PyInstaller process is an outcome parameter: either the lines it printed
  and its exit code, or "executable not found" together with the result of
  the automatic `pip install`, or an exception raised after some output.

Two facts the model proves about the source:

- The "Please provide an app name." check can never fire. A script that
  passes the ".py" test always has a non-empty file name without its
  extension (`Validator.NameCheckNeverFails`).
- The `if artifact_hint:` guard in `_run_build` is always true
  (`Artifact.HintNeverEmpty`).

String and path helpers (`PathText`):

- `str.strip()` uses Python's full whitespace set.
- `posixpath.basename`, `posixpath.splitext` and `posixpath.join` follow
  their CPython definitions, including splitext's rule for leading dots.

Files:

- `pathtext.dfy`: module `PathText`.
- `form.dfy`: module `BuildForm`, the form and its resolved name.
- `validator.dfy`: module `Validator`.
- `composer.dfy`: module `Composer`.
- `artifact.dfy`: module `Artifact`.
- `decimal.dfy`: module `Decimal`, `str()` of an exit code.
- `controller.dfy`: module `Controller`.

## Model

| member | source | states |
|---|---|---|
| PathText.Strip | main.py:179 | str.strip(): Python whitespace removed at both ends; what it keeps is stated by StripShape |
| PathText.Basename | main.py:187 | posixpath.basename: the text after the last '/'; its shape is stated by BasenameIndex and BasenameShape |
| PathText.SplitextRoot | main.py:187 | posixpath.splitext(p)[0]: the path without its last extension, where dots that lead the last component do not start one; its shape is stated by SplitextRootShape |
| PathText.Join | main.py:263-264 | posixpath.join for two parts: an absolute second part replaces the first; otherwise a '/' is inserted unless the first is empty or already ends in one; stated by JoinRelative and JoinAbsolute |
| PathText.StripShape | main.py:179 | strip() keeps a contiguous slice of the text that neither starts nor ends with whitespace, and everything outside that slice is whitespace |
| PathText.StripEmpty | main.py:179-181 | a stripped entry is empty exactly when the entry is all whitespace, which is when the "Please select a Python file." branch is taken |
| PathText.StripUnpadded | main.py:179 | text without whitespace at either end is left unchanged by strip() |
| PathText.Lower | main.py:184 | lower() keeps the length and maps each character on its own |
| PathText.LastIndexOfShape | main.py:187 | rfind returns -1 or an index holding the character, with no occurrence after it |
| PathText.BasenameIndex | main.py:187 | basename is the text after the last '/': the separator sits just before it and none follows |
| PathText.BasenameShape | main.py:187 | basename is a separator-free suffix of the path, preceded by '/' unless it is the whole path, and empty exactly for an empty path or one ending in '/' |
| PathText.SplitextRootShape | main.py:187 | splitext's root is a prefix of the path; what it cuts off starts with '.' and holds no further '.' or '/'; the root is empty only for the empty path; and a cut happens exactly when the last component holds a '.' after a character other than '.' |
| PathText.JoinRelative | main.py:263-264 | joining a relative component gives the directory, at most one '/', then the component; the '/' is inserted exactly when the directory is non-empty and does not already end with one |
| PathText.JoinAbsolute | main.py:263-264 | joining an absolute component discards the directory and gives the component |
| PathText.EndsWith | main.py:184 | str.endswith(suffix): the suffix is no longer than the text and equals its last characters |
| PathText.LowerEndsWith | main.py:184 | s.lower().endswith(suffix) with ASCII lower-casing; for ".py", ".ico" and ".icns" this gives Python's verdict; it decides the tests at main.py:184, 193 and 195 |
| PathText.LowerKeepsSeparators | main.py:184 | lower-casing neither creates nor removes '/' or '.' |
| PathText.PythonScriptRootNonEmpty | main.py:184-189 | a path passing the case-insensitive ".py" test has a non-empty splitext(basename(p))[0] |
| BuildForm.ResolvedName | main.py:187 | the name shared by the validator and the composer (main.py:233 computes the same): the stripped name entry, or else splitext(basename(stripped source))[0]; its properties are in NameResolution |
| BuildForm.NameResolution | main.py:187 | the resolved name is the stripped name entry when that is non-empty; otherwise it is a separator-free prefix of the script's basename; and it is non-empty for any ".py" script |
| BuildForm.DefaultNameDropsExtension | main.py:187 | with an empty name entry, a basename holding a '.' after some other character loses its extension: the default name is the basename up to, not including, its last '.' |
| BuildForm.DefaultNameExample | main.py:187 | with an empty name entry, "app.py" resolves to "app" |
| Validator.ValidateInputs | main.py:178-207 | the validator with its early returns in source order, over the given file-system oracle and makedirs outcome; its meaning is stated by ValidateIsFirstFailure, OkIff and the lemmas below |
| Validator.Message | main.py:181-205 | the exact text the source returns for each problem, including the makedirs exception's text |
| Validator.AsPair | main.py:178-207 | the returned pair is (True, "") on success and (False, a non-empty message) on failure |
| Validator.FirstFailure | main.py:178-207 | reference semantics: accepted exactly when no check fails, otherwise rejected with the problem of the first failing check |
| Validator.ValidateIsFirstFailure | main.py:178-207 | the validator equals short-circuit evaluation of its eight checks in source order |
| Validator.ValidatorCases | main.py:178-207 | source, name and icon are judged first; after them only the makedirs failure can reject; otherwise the form is accepted |
| Validator.OkIff | main.py:178-207 | validation passes if and only if every condition holds: existing ".py" source, non-empty name, an acceptable icon, and an output directory that exists or can be created |
| Validator.SourceChecksFirst | main.py:179-185 | an empty, missing or non-".py" source gets its own message, whatever the other fields hold |
| Validator.NameCheckNeverFails | main.py:184-189 | the validator never returns "Please provide an app name." |
| Validator.IconRules | main.py:191-198 | a non-empty icon needs ".ico" on win32 and ".icns" on darwin, checked before existence; on any other platform only existence is checked |
| Validator.ForeignIconRefused | main.py:192-196 | a ".icns" icon is refused on win32 and a ".ico" icon on darwin |
| Validator.OutputDirectory | main.py:200-207 | an accepted form leaves a usable output directory; the makedirs error, with its reason, is reported exactly when all earlier checks pass and a missing directory cannot be created |
| Composer.Render | main.py:240-265 | the tokens for an option record: the set switches in order, then each present valued flag followed by its value; inverted by ParseOptions (ParseRender, RenderParse) |
| Composer.ParseOptions | main.py:237-265 | reads an option record back from the tokens after the script path, accepting each flag only in its place; refuses anything else |
| Composer.RequestedOptions | main.py:232-265 | the options a form asks for: its check boxes, the resolved name and stripped icon when non-empty, the bundle id under the darwin rule, dist and build beneath a non-empty stripped output directory |
| Composer.CommandLine | main.py:237-265 | the reference command: the four-token prefix followed by the rendered requested options; ComposeCommand is proved equal to it |
| Composer.ComposeCommand | main.py:231-271 | the argument list equals the prefix plus the rendered requested options, and the returned name equals the shared resolved name |
| Composer.AppendCommonSwitches | main.py:239-247 | appends the ticked switches in the order --clean, --onefile, --windowed |
| Composer.AppendNameAndIcon | main.py:249-253 | appends --name and --icon, each with its value, only when that value is non-empty |
| Composer.AppendBundleId | main.py:255-259 | appends --osx-bundle-identifier only on darwin, with the entry present and its stripped text non-empty |
| Composer.AppendOutputDirs | main.py:261-265 | appends --distpath and --workpath together, below a non-empty output directory |
| Composer.TakeSwitch | main.py:240-247 | reading a switch consumes exactly its rendering |
| Composer.TakeValue | main.py:249-265 | reading a flag with its value consumes exactly its rendering |
| Composer.ParseRender | main.py:237-265 | parsing a rendered option record returns that record |
| Composer.RenderParse | main.py:237-265 | every token list the parser accepts is the rendering of what it read, so no two option records render alike |
| Composer.CommandEncodesRequest | main.py:237 | the command starts with the interpreter, "-m", "PyInstaller" and the stripped script path, and the rest parses to the requested options |
| Composer.SwitchBlock | main.py:240-247 | the switch block has one token per ticked box, holds only switches, each once, in rank order, and holds a switch exactly when its box is ticked |
| Composer.SwitchesInOrder | main.py:240-250 | after the script path come exactly the ticked switches, in order, then "--name" and the resolved name whenever that is non-empty |
| Composer.DirsLayout | main.py:265 | with both directories, the last four tokens are --distpath, its value, --workpath, its value |
| Composer.OutputDirsPaired | main.py:261-265 | --distpath and --workpath are present exactly when the stripped output directory is non-empty, and then they are the last four tokens, with dist and build below it |
| Composer.BundleIdentifier | main.py:255-259 | the bundle identifier is passed exactly on darwin with the entry present and its stripped text non-empty, and its value is that text |
| Composer.NameAndIcon | main.py:249-253 | --name carries the shared resolved name and is present exactly when it is non-empty; --icon likewise carries the stripped icon |
| Artifact.OutputRoot | main.py:321 | the stripped output entry, or the working directory when that is empty |
| Artifact.DistDir | main.py:322 | "dist" joined onto the output root; its shape is stated by DistDirShape |
| Artifact.HintIn | main.py:323-329 | the hint's case split on platform.system() and the one-file box, for a given dist directory |
| Artifact.ArtifactHint | main.py:319-329 | the hint for the form's output entry, the working directory, the name and the one-file box; its layout is stated by HintLayout |
| Artifact.DistDirShape | main.py:321-322 | the dist directory is the output root (or the working directory) with "dist" joined under one separator, ending in "dist" |
| Artifact.JoinBelow | main.py:325-328 | a relative component joined to a directory not ending in '/' lands after exactly one '/' |
| Artifact.JoinFile | main.py:325-328 | a file name with its extension, joined onto a directory not ending in '/', lands after exactly one '/' |
| Artifact.HintInLayout | main.py:323-329 | for a dist directory not ending in '/' and a non-empty name that neither starts nor ends with '/', the hint for each platform spells out the path with one '/' between components |
| Artifact.HintLayout | main.py:319-329 | for any non-empty name that neither starts nor ends with '/' (a typed "tools/app" included): Windows one-file: "Artifact: dist/name.exe"; Windows otherwise: "Artifact: dist/name/name.exe"; macOS: "Artifact: dist/name.app"; elsewhere: "Artifacts in: dist" |
| Artifact.HintNeverEmpty | main.py:296-298 | the hint is never empty, so it is always logged after a success |
| Artifact.HintMatchesDistpath | main.py:321-322 | with a non-empty output directory, the hint's dist directory is the value passed with --distpath |
| Decimal.NatString | main.py:301 | the decimal digits of a count: only digits, at least one, no leading zero |
| Decimal.IntString | main.py:301 | str(code) is non-empty and starts with '-' exactly for a negative code |
| Decimal.NatStringValue | main.py:301 | reading the digits back gives the number |
| Decimal.IntStringRoundTrip | main.py:301-302 | the exit code in the failure messages reads back as the code |
| Controller.ButtonLabel | main.py:136-142 | the idle label of the Build button for each platform.system() value; ButtonLabels states that they are distinct and differ from the busy label |
| Controller.OutcomeLog | main.py:289-313 | what a run logs after the command echo for each outcome: the output lines, then the success line and hint or the exit code; the install attempt and its result; or the exception text |
| Controller.OutcomeDialogs | main.py:299-313 | the message box each outcome ends with, none after a successful install |
| Controller.RunLog | main.py:277-313 | everything a run logs: "Command:", the command for the form, then the outcome's log with the hint for the form as it reads at the end |
| Controller.ButtonLabels | main.py:136-142 | each platform's idle label is distinct and none is "Building..." |
| Controller.OutputLog | main.py:289-290 | one log entry per output line, in order, with its text |
| Controller.BuildController.constructor | main.py:45-47 | a new window is not building, its button is enabled with the idle label, and the log and dialogs are empty |
| Controller.BuildController.OnBuildClicked | main.py:209-229 | a click while building only shows "Build in progress"; otherwise validation runs: a rejection lowers the flag again and shows the validator's message; an acceptance clears the log, writes the start line and disables the button |
| Controller.BuildController.RunBuild | main.py:273-317 | logs the command for the form, then the outcome's lines, shows the outcome's message box, and in every case ends with the flag lowered and the button enabled with its idle label |
| Controller.BuildController.ReportOutcome | main.py:289-313 | dispatches on the outcome and leaves the flag and the button untouched |
| Controller.BuildController.ReportExit | main.py:289-302 | the output lines, then success or the exit code |
| Controller.BuildController.ReportSuccess | main.py:294-299 | logs the success line and the artifact hint, then shows "Success" |
| Controller.BuildController.ReportFailure | main.py:300-302 | logs the exit code and shows "Build failed" with it |
| Controller.BuildController.ReportMissingTool | main.py:303-310 | logs the install attempt and its result; only a failed install shows a box |
| Controller.BuildController.ReportCrash | main.py:311-313 | logs the exception text after the output, and shows it |
| Controller.BuildController.AppendOutput | main.py:289-290 | appends one log entry per line, in order, and changes nothing else |
| Controller.ClickAndRun | main.py:209-317 | from an idle controller, one click, then the run if one started: the controller always ends idle with its button enabled; a run happens exactly when validation accepts, and then the log is the start line followed by the run's log and the run's box is added; a rejected form carries the validator's problem, leaves the log unchanged and adds exactly the "Invalid input" box with that problem's message |

## Left out

- Tk/customtkinter widgets, layout, the footer text and the `_browse_*`
  dialogs are presentation only; the form's entries are given as a value.
- Message boxes are recorded as a list of dialogs rather than shown.
- `_append_log` is modelled as appending an entry to a list. Clearing the
  log at the start of a build is modelled as replacing the list; scrolling
  (`see("end")`) is not modelled.
- The command echo keeps the argument list. Its `shlex.quote` rendering and
  the surrounding spaces and newlines are not modelled.
- The worker thread, `threading.Lock` and `subprocess.Popen` are not modelled.
  The process is a parameter: its output lines and exit code, launch failure,
  or an exception after some output. Concurrent clicks during a run are the
  calls of `OnBuildClicked` made while `building` holds.
- Exceptions raised after `process.wait()` are not modelled.
  `os.getcwd()` inside `_artifact_hint` can raise `FileNotFoundError` once
  the working directory is gone, after "Build completed successfully." was
  logged. The `except FileNotFoundError` handler would then run pip. The
  `mb.show*` calls can also raise. `RunOutcome` expresses an exception only
  at launch or while output streams, so these log and dialog sequences are
  not covered. The flag reset holds in those cases too, because of the
  `finally` block.
- The `pip install` after a `FileNotFoundError` is an outcome parameter.
  `_ensure_pyinstaller_installed` and `main` are startup code and are not
  part of this model.
- `os.path.isfile` and `os.path.isdir` are an oracle of existing files and
  directories. The directory that `os.makedirs` creates is not added to that
  oracle. Its outcome is a parameter.
- `sys.platform`, `platform.system()`, `sys.executable` and `os.getcwd()` are
  parameters.
- Paths follow posixpath on every platform. Windows' ntpath rules (backslash
  separators, drive letters) are not modelled.
- PathText.Lower: only ASCII letters are lower-cased. Python's Unicode case
  mapping is not modelled.
- `RunBuild` takes the form twice, because the source reads the entries
  twice. The command comes from the form as it reads when the run starts.
  The artifact hint comes from the form as it reads when the run ends
  (`later`). How the entries change in between is not modelled.
