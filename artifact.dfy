/** BuilderApp._artifact_hint: the line the builder logs after a successful
    run, telling where PyInstaller put its output. platform.system() and
    os.getcwd() are parameters. */
module Artifact {
  import opened PathText
  import opened BuildForm
  import Composer

  /** The trimmed output-directory entry, or the working directory when it
      is empty. */
  function OutputRoot(outEntry: string, cwd: string): string {
    var out := Strip(outEntry);
    if out != [] then out else cwd
  }

  /** The dist directory beneath the output root. */
  function DistDir(outEntry: string, cwd: string): string {
    Join(OutputRoot(outEntry, cwd), "dist")
  }

  /** The hint for a given dist directory: one executable on Windows
      (inside a folder of its own name unless the build was one-file), an
      .app bundle on macOS, and the dist directory anywhere else. */
  function HintIn(systemName: string, dist: string, name: string, onefile: bool): string {
    if systemName == "Windows" then
      if onefile then "Artifact: " + Join(dist, name + ".exe")
      else "Artifact: " + Join(Join(dist, name), name + ".exe")
    else if systemName == "Darwin" then "Artifact: " + Join(dist, name + ".app")
    else "Artifacts in: " + dist
  }

  /** The hint as the source builds it, beneath the output root. */
  function ArtifactHint(systemName: string, outEntry: string, cwd: string, name: string, onefile: bool): string {
    HintIn(systemName, DistDir(outEntry, cwd), name, onefile)
  }

  /** The dist directory is the output root with "dist" appended after one
      separator, so it is never empty and never ends with a separator. */
  lemma {:induction false} DistDirShape(outEntry: string, cwd: string)
    ensures var root, dist := OutputRoot(outEntry, cwd), DistDir(outEntry, cwd);
      (root == [] || root[|root| - 1] == '/' ==> dist == root + "dist") &&
      (root != [] && root[|root| - 1] != '/' ==> dist == root + "/dist")
    ensures var dist := DistDir(outEntry, cwd);
      |dist| >= 4 && dist[|dist| - 4..] == "dist"
  {
  }

  /** A relative component joined onto a directory that does not end with
      a separator lands after exactly one '/'. */
  lemma {:induction false} JoinBelow(dir: string, part: string)
    requires dir != [] && dir[|dir| - 1] != '/'
    requires part != [] && part[0] != '/'
    ensures Join(dir, part) == dir + "/" + part
  {
  }

  /** A file name with an extension, joined onto a directory that does not
      end with a separator, lands after exactly one '/'. */
  lemma {:induction false} JoinFile(dir: string, name: string, ext: string)
    requires dir != [] && dir[|dir| - 1] != '/'
    requires name != [] && name[0] != '/'
    ensures Join(dir, name + ext) == dir + "/" + name + ext
  {
    assert (name + ext)[0] == name[0];
    JoinBelow(dir, name + ext);
    Composer.Associate(dir + "/", name, ext);
  }

  /** Beneath a directory that does not end with a separator, the hint for
      a non-empty name that neither starts nor ends with a separator puts
      one '/' between each pair of components. */
  lemma {:induction false} HintInLayout(systemName: string, dist: string, name: string, onefile: bool)
    requires dist != [] && dist[|dist| - 1] != '/'
    requires name != [] && name[0] != '/' && name[|name| - 1] != '/'
    ensures var h := HintIn(systemName, dist, name, onefile);
      (systemName == "Windows" && onefile ==> h == "Artifact: " + dist + "/" + name + ".exe") &&
      (systemName == "Windows" && !onefile ==> h == "Artifact: " + dist + "/" + name + "/" + name + ".exe") &&
      (systemName == "Darwin" ==> h == "Artifact: " + dist + "/" + name + ".app") &&
      (systemName != "Windows" && systemName != "Darwin" ==> h == "Artifacts in: " + dist)
  {
    var a := "Artifact: ";
    if systemName == "Windows" {
      if onefile {
        var j := Join(dist, name + ".exe");
        JoinFile(dist, name, ".exe");
        assert j == dist + "/" + name + ".exe";
        assert a + j == a + dist + "/" + name + ".exe";
      } else {
        JoinBelow(dist, name);
        var folder := dist + "/" + name;
        assert folder[|folder| - 1] == name[|name| - 1];
        var j := Join(folder, name + ".exe");
        JoinFile(folder, name, ".exe");
        assert j == folder + "/" + name + ".exe";
        assert a + j == a + dist + "/" + name + "/" + name + ".exe";
      }
    } else if systemName == "Darwin" {
      var j := Join(dist, name + ".app");
      JoinFile(dist, name, ".app");
      assert j == dist + "/" + name + ".app";
      assert a + j == a + dist + "/" + name + ".app";
    }
  }

  /** For a non-empty name that neither starts nor ends with a separator
      (a typed name such as "tools/app" included), the hint spells out the
      layout PyInstaller uses: dist/<name>.exe for a one-file Windows build,
      dist/<name>/<name>.exe otherwise on Windows, dist/<name>.app on macOS,
      and the dist directory itself elsewhere. */
  lemma {:induction false} HintLayout(systemName: string, outEntry: string, cwd: string, name: string, onefile: bool)
    requires name != [] && name[0] != '/' && name[|name| - 1] != '/'
    ensures var dist, h := DistDir(outEntry, cwd), ArtifactHint(systemName, outEntry, cwd, name, onefile);
      (systemName == "Windows" && onefile ==> h == "Artifact: " + dist + "/" + name + ".exe") &&
      (systemName == "Windows" && !onefile ==> h == "Artifact: " + dist + "/" + name + "/" + name + ".exe") &&
      (systemName == "Darwin" ==> h == "Artifact: " + dist + "/" + name + ".app") &&
      (systemName != "Windows" && systemName != "Darwin" ==> h == "Artifacts in: " + dist)
  {
    var dist := DistDir(outEntry, cwd);
    DistDirShape(outEntry, cwd);
    assert dist[|dist| - 1] == "dist"[3];
    HintInLayout(systemName, dist, name, onefile);
  }

  /** The hint is never empty, so the success path of a run always logs
      it: the source's `if artifact_hint:` guard never skips it. */
  lemma {:induction false} HintNeverEmpty(systemName: string, outEntry: string, cwd: string, name: string, onefile: bool)
    ensures |ArtifactHint(systemName, outEntry, cwd, name, onefile)| > 9
  {
  }

  /** With a non-empty output-directory entry the hint names the same dist
      directory the command passed to PyInstaller with --distpath. */
  lemma {:induction false} HintMatchesDistpath(f: Form, sysPlatform: string, exe: string, cwd: string)
    requires Strip(f.outDir) != []
    ensures var cmd := Composer.CommandLine(f, sysPlatform, exe);
      |cmd| >= 8 && cmd[|cmd| - 4] == "--distpath" && cmd[|cmd| - 3] == DistDir(f.outDir, cwd)
  {
    var o := Composer.RequestedOptions(f, sysPlatform);
    var out := Strip(f.outDir);
    var cmd := Composer.CommandLine(f, sysPlatform, exe);
    assert cmd == Composer.Prefix(f, exe) + Composer.Render(o);
    assert o.distPath == Some(Join(out, "dist")) && o.workPath == Some(Join(out, "build"));
    Composer.DirsLayout(Composer.Prefix(f, exe), o);
    var last := cmd[|cmd| - 4..];
    assert last[0] == cmd[|cmd| - 4] && last[1] == cmd[|cmd| - 3];
    assert DistDir(f.outDir, cwd) == Join(out, "dist");
  }
}
