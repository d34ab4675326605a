/**
 * The generator's run (`createMainDirectory`): make the two top-level
 * folders, then the backend — its sub-folders, the package install chain,
 * the entry file, `db/connectDB.js` and the `package.json` patch — and
 * finally the frontend. Each step is a method over a `Workspace`, proved to
 * perform the transition that the functions here describe; the lemmas
 * state how failures propagate.
 *
 * Failures are contained as the source contains them: a failing top-level
 * `mkdir` or a rejected install chain ends the run at the outer handler;
 * failures in the sub-folder loop, the entry file, the connectDB file, the
 * manifest patch and the frontend are caught where they happen and the run
 * goes on.
 */
module Scaffold {
  import opened Strings
  import opened Seqs
  import opened Manifest
  import opened Effects
  import opened Workspace
  import opened EntryFile
  import opened Packages
  import opened Frontend

  /** The top-level folders asked for, in order. */
  const MainFolders: seq<string> := ["backend", "frontend"]

  /** The backend sub-folders asked for, in order. */
  const BackendFolders: seq<string> :=
    ["db", "models", "routes", "controllers", "middlewares", "utils", "validators"]

  /** Every folder has an answer. */
  predicate AnswersAll(folders: seq<string>, answers: map<string, string>) {
    forall i :: 0 <= i < |folders| ==> folders[i] in answers
  }

  /** The answers to a list of name questions, in question order. */
  function Answered(folders: seq<string>, answers: map<string, string>): seq<string>
    requires AnswersAll(folders, answers)
  {
    seq(|folders|, i requires 0 <= i < |folders| => answers[folders[i]])
  }

  /** `promptMainDirectory`: one name per folder, in the order of `folders`. */
  method PromptMainDirectory(folders: seq<string>, answers: map<string, string>) returns (names: seq<string>)
    requires AnswersAll(folders, answers)
    ensures |names| == |folders|
    ensures forall i :: 0 <= i < |folders| ==> names[i] == answers[folders[i]]
  {
    names := [];
    var k := 0;
    while k < |folders|
      invariant 0 <= k <= |folders|
      invariant |names| == k
      invariant forall i :: 0 <= i < k ==> names[i] == answers[folders[i]]
    {
      names := names + [answers[folders[k]]];
      k := k + 1;
    }
  }

  /** Everything the user answers during a run. */
  datatype Answers = Answers(
    /** Names for the top-level folders, keyed by `MainFolders`. */
    mainFolders: map<string, string>,
    /** Names for the backend sub-folders, keyed by `BackendFolders`. */
    subfolders: map<string, string>,
    /** The confirm answer for each catalog package. */
    packages: map<string, bool>,
    mainFile: string,
    template: string,
    /** The raw answer to the CSS question. */
    css: string)

  /** The name questions were all answered. */
  predicate Complete(a: Answers) {
    AnswersAll(MainFolders, a.mainFolders) && AnswersAll(BackendFolders, a.subfolders)
  }

  // ---------------------------------------------------------------------
  // The connectDB module and the manifest patch

  const ConnectDBSource :=
    "import mongoose from 'mongoose';\n"
    + "\n"
    + "const connectDB = () => {\n"
    + "    mongoose\n"
    + "        .connect(process.env.MONGO_URL || "
    + "'mongodb://127.0.0.1:27017/projectName')\n"
    + "        .then(() => {\n"
    + "            console.log("
    + "'=>Connected to the database');\n"
    + "        })\n"
    + "        .catch((err) => {\n"
    + "            console.error("
    + "'Error connecting to the database:', "
    + "err.message);\n"
    + "        });\n"
    + "};\n"
    + "\n"
    + "export default connectDB;\n"

  function DbDir(dir: Path): Path { PathJoin(dir, "db") }
  function ConnectDBPath(dir: Path): Path { PathJoin(DbDir(dir), "connectDB.js") }
  function ManifestPath(dir: Path): Path { PathJoin(dir, "package.json") }

  /** `createConnectDBFile`: make `db` (recursively), then write the module into it. */
  function ConnectDB(s: State, dir: Path): Outcome {
    var m := MkdirAll(s, dir, "db");
    if !m.ok then m
    else WriteFile(m.state, DbDir(dir), "connectDB.js", Source(ConnectDBSource))
  }

  /**
   * `updatePackageJson`: read `package.json`, parse it, set `main` and
   * `type`, write it back. Reading a missing file, parsing text that is not
   * JSON, and assigning properties of a value that is not an object or an
   * array all throw, and then nothing is written.
   */
  function UpdatePackageJson(s: State, dir: Path, mainFile: string): Outcome {
    var p := ManifestPath(dir);
    if p !in s.files || s.files[p].Source? then Outcome(s, false)
    else
      match PatchDocument(s.files[p].json, mainFile)
      case None => Outcome(s, false)
      case Some(v) => WriteFile(s, dir, "package.json", Document(v))
  }

  /**
   * After a successful patch of an object manifest, `main` names the entry
   * file, `type` is `"module"` and every other key keeps its value; a
   * missing, unparseable or non-object manifest is left as it was, and so is
   * everything else.
   */
  lemma UpdatePackageJsonEffect(s: State, dir: Path, mainFile: string)
    ensures var o := UpdatePackageJson(s, dir, mainFile);
      var p := ManifestPath(dir);
      && o.state.dirs == s.dirs && o.state.log == s.log
      && (forall q :: q != p ==> (q in o.state.files <==> q in s.files))
      && (forall q :: q in s.files && q != p ==> o.state.files[q] == s.files[q])
      && (o.ok ==> p in s.files && s.files[p].Document? && p in o.state.files)
      && (o.ok && s.files[p].json.JObj? ==>
            var f := o.state.files[p].json.fields;
            && o.state.files[p].Document?
            && f["main"] == JStr(mainFile) && f["type"] == JStr("module")
            && forall k :: k in s.files[p].json.fields && k != "main" && k != "type" ==>
                 k in f && f[k] == s.files[p].json.fields[k])
      && (p !in s.files || s.files[p].Source? || (!s.files[p].json.JObj? && !s.files[p].json.JArr?) ==>
            o == Outcome(s, false))
  {
  }

  /** Patching twice with the same entry file leaves what patching once left. */
  lemma UpdatePackageJsonIdempotent(s: State, dir: Path, mainFile: string)
    requires UpdatePackageJson(s, dir, mainFile).ok
    ensures var t := UpdatePackageJson(s, dir, mainFile).state;
      UpdatePackageJson(t, dir, mainFile) == Outcome(t, true)
  {
    var p := ManifestPath(dir);
    var t := UpdatePackageJson(s, dir, mainFile).state;
    var v := s.files[p].json;
    if v.JObj? {
      PatchTwice(v.fields, mainFile);
    }
    assert t.files[p] == Document(PatchDocument(v, mainFile).value);
    assert t.files[p := t.files[p]] == t.files;
  }

  lemma PatchTwice(fields: map<string, Json>, mainFile: string)
    ensures Patch(Patch(fields, mainFile), mainFile) == Patch(fields, mainFile)
  {
  }

  // ---------------------------------------------------------------------
  // The run, as transitions

  /**
   * The three steps after a resolved install, each of whose failures is
   * caught where it happens: the entry file, the connectDB module, the
   * manifest patch.
   */
  function AfterInstall(t: State, dir: Path, mainFile: string, sel: seq<string>): State {
    var s3 := WriteFile(t, dir, mainFile, Source(MainFileText(sel))).state;
    var s4 := ConnectDB(s3, dir).state;
    UpdatePackageJson(s4, dir, mainFile).state
  }

  /**
   * The backend part of the run in the backend directory `dir`: sub-folders
   * (failure caught), the install chain (a rejection ends the run), then
   * `AfterInstall`.
   */
  function Backend(s: State, failing: set<Command>, dir: Path, name: string, a: Answers): Outcome
    requires Complete(a)
  {
    var s1 := MkdirEach(s, dir, Answered(BackendFolders, a.subfolders)).state;
    var inst := RunPlan(s1, failing, BackendPlan(dir, name, Selection(a.packages)));
    if !inst.ok then inst
    else Outcome(AfterInstall(inst.state, dir, a.mainFile, Selection(a.packages)), true)
  }

  /** The whole run from the working directory `cwd`; `ok` is false when the outer handler caught an error. */
  function ScriptRun(s: State, failing: set<Command>, cwd: Path, a: Answers): Outcome
    requires Complete(a)
  {
    var names := Answered(MainFolders, a.mainFolders);
    var roots := MkdirEach(s, cwd, names);
    if !roots.ok then roots
    else
      var back := Backend(roots.state, failing, PathJoin(cwd, names[0]), names[0], a);
      if !back.ok then back
      else if names[1] == "" then back
      else Outcome(RunPlan(back.state, failing, FrontendPlan(cwd, names[1], a.template, CssChoice(a.css))).state, true)
  }

  // ---------------------------------------------------------------------
  // The run, as methods over a workspace

  /** `createBackendStructure`: the sub-folder loop, its failure caught. */
  method CreateBackendStructure(w: Workspace, dir: Path, answers: map<string, string>)
    requires AnswersAll(BackendFolders, answers)
    modifies w
    ensures w.Snapshot() == MkdirEach(old(w.Snapshot()), dir, Answered(BackendFolders, answers)).state
  {
    var names := PromptMainDirectory(BackendFolders, answers);
    assert names == Answered(BackendFolders, answers);
    var _ := w.MkdirEach(dir, names);
  }

  /** `promptAndInstallPackages`: the selection, then the install chain; `ok` is false when it rejects. */
  method PromptAndInstallPackages(w: Workspace, dir: Path, name: string, answers: map<string, bool>)
    returns (ok: bool, selected: seq<string>)
    modifies w
    ensures selected == Selection(answers)
    ensures w.Snapshot() == RunPlan(old(w.Snapshot()), w.failing, BackendPlan(dir, name, selected)).state
    ensures ok == RunPlan(old(w.Snapshot()), w.failing, BackendPlan(dir, name, selected)).ok
  {
    selected := Filter(Catalog, Chosen(answers));
    selected := selected + [AlwaysInstalled];
    ok := w.RunPlan(BackendPlan(dir, name, selected));
  }

  /** `createMainFile`: assemble the entry file and write it; a failed write is caught. */
  method CreateMainFile(w: Workspace, dir: Path, mainFile: string, pkgs: seq<string>)
    modifies w
    ensures w.Snapshot() == WriteFile(old(w.Snapshot()), dir, mainFile, Source(MainFileText(pkgs))).state
  {
    var configs := CollectMiddleware(pkgs);
    var mongoose := "mongoose" in pkgs;
    var file := Sections(
      Join(ImportLines(pkgs), "\n"),
      if mongoose then ConnectDBImport else "",
      Join(configs, "\n"),
      if "dotenv" in pkgs then DotenvPort else FixedPort,
      if mongoose then ConnectDBCall else "");
    assert file == Synthesize(pkgs);
    var _ := w.WriteFile(dir, mainFile, Source(Render(file)));
  }

  /** `createConnectDBFile`, its failure caught. */
  method CreateConnectDBFile(w: Workspace, dir: Path)
    modifies w
    ensures w.Snapshot() == ConnectDB(old(w.Snapshot()), dir).state
  {
    var made := w.MkdirAll(dir, "db");
    if made {
      var _ := w.WriteFile(DbDir(dir), "connectDB.js", Source(ConnectDBSource));
    }
  }

  /** `updatePackageJson`, its failure caught. */
  method UpdateManifest(w: Workspace, dir: Path, mainFile: string)
    modifies w
    ensures w.Snapshot() == UpdatePackageJson(old(w.Snapshot()), dir, mainFile).state
  {
    var current := w.ReadFile(ManifestPath(dir));
    if current.Some? && current.value.Document? {
      var patched := PatchDocument(current.value.json, mainFile);
      if patched.Some? {
        var _ := w.WriteFile(dir, "package.json", Document(patched.value));
      }
    }
  }

  /** `createFrontendStructure`: the frontend plan, its failure caught. */
  method CreateFrontendStructure(w: Workspace, cwd: Path, folder: string, template: string, css: Option<string>)
    modifies w
    ensures w.Snapshot() == RunPlan(old(w.Snapshot()), w.failing, FrontendPlan(cwd, folder, template, css)).state
  {
    var _ := w.RunPlan(FrontendPlan(cwd, folder, template, css));
  }

  /** `createMainDirectory`: the whole run; `ok` is false when the outer handler caught an error. */
  method CreateMainDirectory(w: Workspace, cwd: Path, a: Answers) returns (ok: bool)
    requires Complete(a)
    modifies w
    ensures w.Snapshot() == ScriptRun(old(w.Snapshot()), w.failing, cwd, a).state
    ensures ok == ScriptRun(old(w.Snapshot()), w.failing, cwd, a).ok
  {
    var names := PromptMainDirectory(MainFolders, a.mainFolders);
    assert names == Answered(MainFolders, a.mainFolders);
    ok := w.MkdirEach(cwd, names);
    if !ok {
      return;
    }
    var backendName, frontendName := names[0], names[1];
    var dir := PathJoin(cwd, backendName);
    ghost var afterRoots := w.Snapshot();
    CreateBackendStructure(w, dir, a.subfolders);
    var selected;
    ok, selected := PromptAndInstallPackages(w, dir, backendName, a.packages);
    if !ok {
      return;
    }
    ghost var afterInstall := w.Snapshot();
    CreateMainFile(w, dir, a.mainFile, selected);
    CreateConnectDBFile(w, dir);
    UpdateManifest(w, dir, a.mainFile);
    assert w.Snapshot() == AfterInstall(afterInstall, dir, a.mainFile, selected);
    assert Backend(afterRoots, w.failing, dir, backendName, a) == Outcome(w.Snapshot(), true);
    if frontendName != "" {
      CreateFrontendStructure(w, cwd, frontendName, a.template, CssChoice(a.css));
    }
  }

  // ---------------------------------------------------------------------
  // Properties of the run

  /** A top-level folder that cannot be made ends the run before any command or file. */
  lemma RootFailureStopsRun(s: State, failing: set<Command>, cwd: Path, a: Answers)
    requires Complete(a)
    requires !MkdirEach(s, cwd, Answered(MainFolders, a.mainFolders)).ok
    ensures var o := ScriptRun(s, failing, cwd, a);
      !o.ok && o.state.log == s.log && o.state.files == s.files
  {
    MkdirEachGrows(s, cwd, Answered(MainFolders, a.mainFolders));
  }

  /**
   * Once both top-level folders exist neither name is empty, so the
   * frontend guard (`if (frontendFolderName)`) never skips the frontend.
   */
  lemma FrontendGuardPasses(s: State, cwd: Path, names: seq<string>)
    requires |names| == 2
    requires MkdirEach(s, cwd, names).ok
    ensures names[0] != "" && names[1] != ""
  {
    MkdirEachSuccess(s, cwd, names);
  }

  /**
   * The run resolves exactly when both top-level folders are made and none
   * of the three install commands fails; every later failure is caught.
   */
  lemma ScriptRunOk(s: State, failing: set<Command>, cwd: Path, a: Answers)
    requires Complete(a)
    ensures var names := Answered(MainFolders, a.mainFolders);
      ScriptRun(s, failing, cwd, a).ok <==>
        && MkdirEach(s, cwd, names).ok
        && forall c :: c in BackendCommands(PathJoin(cwd, names[0]), Selection(a.packages)) ==> c !in failing
  {
    var names := Answered(MainFolders, a.mainFolders);
    var roots := MkdirEach(s, cwd, names);
    ScriptRunStages(s, failing, cwd, a);
    if roots.ok {
      InstallStage(s, failing, cwd, a);
    }
  }

  /** The run resolves exactly when the top-level folders are made and the backend part resolves. */
  lemma ScriptRunStages(s: State, failing: set<Command>, cwd: Path, a: Answers)
    requires Complete(a)
    ensures var names := Answered(MainFolders, a.mainFolders);
      var roots := MkdirEach(s, cwd, names);
      var dir := PathJoin(cwd, names[0]);
      && (!roots.ok ==> ScriptRun(s, failing, cwd, a) == roots)
      && (roots.ok ==>
            var s1 := MkdirEach(roots.state, dir, Answered(BackendFolders, a.subfolders)).state;
            var inst := RunPlan(s1, failing, BackendPlan(dir, names[0], Selection(a.packages)));
            && ScriptRun(s, failing, cwd, a).ok == inst.ok
            && (!inst.ok ==> ScriptRun(s, failing, cwd, a) == inst))
  {
    var names := Answered(MainFolders, a.mainFolders);
    var roots := MkdirEach(s, cwd, names);
    if roots.ok {
      var dir := PathJoin(cwd, names[0]);
      var back := Backend(roots.state, failing, dir, names[0], a);
      BackendStages(roots.state, failing, dir, names[0], a);
      assert ScriptRun(s, failing, cwd, a).ok == back.ok;
      assert !back.ok ==> ScriptRun(s, failing, cwd, a) == back;
    }
  }

  /** The backend part resolves exactly when its install chain does, and a rejected chain is its outcome. */
  lemma BackendStages(t: State, failing: set<Command>, dir: Path, name: string, a: Answers)
    requires Complete(a)
    ensures var s1 := MkdirEach(t, dir, Answered(BackendFolders, a.subfolders)).state;
      var inst := RunPlan(s1, failing, BackendPlan(dir, name, Selection(a.packages)));
      && Backend(t, failing, dir, name, a).ok == inst.ok
      && (!inst.ok ==> Backend(t, failing, dir, name, a) == inst)
  {
  }

  /**
   * With the top-level folders made, the install chain runs in the existing
   * backend directory after the sub-folder loop, which touched no file and
   * no log entry.
   */
  lemma InstallStage(s: State, failing: set<Command>, cwd: Path, a: Answers)
    requires Complete(a)
    requires MkdirEach(s, cwd, Answered(MainFolders, a.mainFolders)).ok
    ensures var names := Answered(MainFolders, a.mainFolders);
      var dir := PathJoin(cwd, names[0]);
      var roots := MkdirEach(s, cwd, names);
      var s1 := MkdirEach(roots.state, dir, Answered(BackendFolders, a.subfolders)).state;
      var inst := RunPlan(s1, failing, BackendPlan(dir, names[0], Selection(a.packages)));
      && s1.files == s.files && s1.log == s.log
      && inst.state.log == s.log + Issued(BackendCommands(dir, Selection(a.packages)), failing)
      && (inst.ok <==> forall c :: c in BackendCommands(dir, Selection(a.packages)) ==> c !in failing)
  {
    var names := Answered(MainFolders, a.mainFolders);
    var dir := PathJoin(cwd, names[0]);
    var roots := MkdirEach(s, cwd, names);
    MkdirEachSuccess(s, cwd, names);
    assert dir in Created(cwd, names) by {
      assert names[0] in names;
    }
    MkdirEachGrows(s, cwd, names);
    MkdirEachGrows(roots.state, dir, Answered(BackendFolders, a.subfolders));
    var s1 := MkdirEach(roots.state, dir, Answered(BackendFolders, a.subfolders)).state;
    BackendChain(s1, failing, dir, names[0], Selection(a.packages));
  }

  /**
   * A rejected install chain ends the run: the log ends with the failing
   * command, no frontend command is issued, and the only file the run can
   * have added is the `package.json` of `npm init` — no entry file, no
   * connectDB module.
   */
  lemma InstallRejectionSkipsRest(s: State, failing: set<Command>, cwd: Path, a: Answers)
    requires Complete(a)
    requires MkdirEach(s, cwd, Answered(MainFolders, a.mainFolders)).ok
    requires exists c :: c in BackendCommands(PathJoin(cwd, Answered(MainFolders, a.mainFolders)[0]), Selection(a.packages)) && c in failing
    ensures var names := Answered(MainFolders, a.mainFolders);
      var dir := PathJoin(cwd, names[0]);
      var o := ScriptRun(s, failing, cwd, a);
      && !o.ok
      && o.state.log == s.log + Issued(BackendCommands(dir, Selection(a.packages)), failing)
      && o.state.log[|o.state.log| - 1] in failing
      && forall p :: p in o.state.files ==> p in s.files || p == ManifestPath(dir)
  {
    var names := Answered(MainFolders, a.mainFolders);
    var dir := PathJoin(cwd, names[0]);
    var roots := MkdirEach(s, cwd, names);
    var s1 := MkdirEach(roots.state, dir, Answered(BackendFolders, a.subfolders)).state;
    InstallStage(s, failing, cwd, a);
    ScriptRunStages(s, failing, cwd, a);
    ChainRejected(s1, failing, dir, names[0], Selection(a.packages));
  }

  /** A rejected install chain: its last issued command failed, and it added no file but `package.json`. */
  lemma ChainRejected(s1: State, failing: set<Command>, dir: Path, name: string, sel: seq<string>)
    requires exists c :: c in BackendCommands(dir, sel) && c in failing
    ensures var o := RunPlan(s1, failing, BackendPlan(dir, name, sel));
      var issued := Issued(BackendCommands(dir, sel), failing);
      && |issued| > 0 && issued[|issued| - 1] in failing
      && forall p :: p in o.state.files ==> p in s1.files || p == ManifestPath(dir)
  {
    var plan := BackendPlan(dir, name, sel);
    IssuedEndsInFailure(BackendCommands(dir, sel), failing);
    forall step | step in plan ensures CommandOf(step).Some? {
    }
    CommandChainFiles(s1, failing, plan);
    forall p | p in RunPlan(s1, failing, plan).state.files ensures p in s1.files || p == ManifestPath(dir) {
      if p !in s1.files {
        var st :| st in plan && st.NpmInit? && p == PathJoin(st.dir, "package.json");
      }
    }
  }

  /** A chain with a failing command issues commands ending in a failing one. */
  lemma {:induction false} IssuedEndsInFailure(cmds: seq<Command>, failing: set<Command>)
    requires exists c :: c in cmds && c in failing
    ensures |Issued(cmds, failing)| > 0 && Issued(cmds, failing)[|Issued(cmds, failing)| - 1] in failing
  {
    if cmds[0] !in failing {
      var c :| c in cmds && c in failing;
      assert c in cmds[1..];
      IssuedEndsInFailure(cmds[1..], failing);
    }
  }

  /**
   * After a resolved install the connectDB module is written whatever was
   * selected — with or without `mongoose` — unless the backend directory
   * or `db` is a file, the module's path is a directory, or the entry file
   * is named `db` and is written as a file where `db` should go (the
   * backend directory exists and `db` does not yet).
   */
  lemma ConnectDBWrittenWhateverSelected(t: State, dir: Path, mainFile: string, sel: seq<string>)
    requires dir !in t.files && DbDir(dir) !in t.files && ConnectDBPath(dir) !in t.dirs
    requires mainFile == "db" ==> dir !in t.dirs || DbDir(dir) in t.dirs
    ensures var r := AfterInstall(t, dir, mainFile, sel);
      ConnectDBPath(dir) in r.files && r.files[ConnectDBPath(dir)] == Source(ConnectDBSource)
  {
    ConnectDBAfterEntryFile(t, dir, mainFile, Source(MainFileText(sel)));
  }

  /** The same, for whatever content the entry file is given. */
  lemma ConnectDBAfterEntryFile(t: State, dir: Path, mainFile: string, content: Content)
    requires dir !in t.files && DbDir(dir) !in t.files && ConnectDBPath(dir) !in t.dirs
    requires mainFile == "db" ==> dir !in t.dirs || DbDir(dir) in t.dirs
    ensures var s3 := WriteFile(t, dir, mainFile, content).state;
      var r := UpdatePackageJson(ConnectDB(s3, dir).state, dir, mainFile).state;
      ConnectDBPath(dir) in r.files && r.files[ConnectDBPath(dir)] == Source(ConnectDBSource)
  {
    var s3 := WriteFile(t, dir, mainFile, content).state;
    if mainFile == "db" {
      DbParent(dir);
      assert s3 == t;
    } else {
      assert PathJoin(dir, mainFile) != DbDir(dir) by {
        if mainFile != "" {
          assert PathJoin(dir, mainFile) == dir + "/" + mainFile && DbDir(dir) == dir + "/" + "db";
          assert (dir + "/" + mainFile)[|dir| + 1..] == mainFile;
          assert (dir + "/" + "db")[|dir| + 1..] == "db";
        } else {
          assert |PathJoin(dir, mainFile)| < |DbDir(dir)|;
        }
      }
    }
    assert DbDir(dir) !in s3.files;
    ConnectDBParent(dir);
    var s4 := ConnectDB(s3, dir).state;
    ManifestNotConnectDB(dir);
  }

  /**
   * The one case the lemma above leaves out: an entry file named `db`,
   * written while the backend directory exists and `db` does not, takes
   * `db`'s place, so the recursive `mkdir` of `db` fails and the module is
   * not written.
   */
  lemma EntryFileNamedDbBlocksModule(t: State, dir: Path, content: Content)
    requires dir in t.dirs && DbDir(dir) !in t.dirs && DbDir(dir) !in t.files
    ensures var s3 := WriteFile(t, dir, "db", content).state;
      && DbDir(dir) in s3.files
      && !ConnectDB(s3, dir).ok
      && ConnectDB(s3, dir).state == s3
  {
    DbParent(dir);
  }

  /** `db` is created or written directly in the backend directory. */
  lemma DbParent(dir: Path)
    ensures ParentOf(dir, "db") == dir
  {
    SingleSegment(dir, "db");
  }

  /** The connectDB module is written directly into `db`. */
  lemma ConnectDBParent(dir: Path)
    ensures ParentOf(DbDir(dir), "connectDB.js") == DbDir(dir)
  {
    SingleSegment(DbDir(dir), "connectDB.js");
  }

  /** The manifest is written directly into the backend directory. */
  lemma ManifestParent(dir: Path)
    ensures ParentOf(dir, "package.json") == dir
  {
    SingleSegment(dir, "package.json");
  }

  lemma ManifestNotConnectDB(dir: Path)
    ensures ManifestPath(dir) != ConnectDBPath(dir)
  {
    assert ManifestPath(dir)[|dir| + 1] == 'p';
    assert ConnectDBPath(dir)[|dir| + 1] == 'd';
  }

  /**
   * After a resolved install, with the entry file's own directory present
   * (the backend directory, or a sub-directory of it when the name has a
   * `/`), the entry file holds the text synthesized from the selection,
   * unless its path is a directory or is the connectDB module's path (which
   * is written later).
   */
  lemma EntryFileWritten(t: State, dir: Path, mainFile: string, sel: seq<string>)
    requires ParentOf(dir, mainFile) in t.dirs
    requires PathJoin(dir, mainFile) !in t.dirs
    requires PathJoin(dir, mainFile) != ConnectDBPath(dir)
    ensures var r := AfterInstall(t, dir, mainFile, sel);
      PathJoin(dir, mainFile) in r.files && r.files[PathJoin(dir, mainFile)] == Source(MainFileText(sel))
  {
    EntryFileSurvivesSetup(t, dir, mainFile, Source(MainFileText(sel)));
  }

  /** The entry file, whatever its source text, outlives the connectDB module and the manifest patch. */
  lemma EntryFileSurvivesSetup(t: State, dir: Path, mainFile: string, c: Content)
    requires c.Source?
    requires ParentOf(dir, mainFile) in t.dirs
    requires PathJoin(dir, mainFile) !in t.dirs
    requires PathJoin(dir, mainFile) != ConnectDBPath(dir)
    ensures var s3 := WriteFile(t, dir, mainFile, c).state;
      var r := UpdatePackageJson(ConnectDB(s3, dir).state, dir, mainFile).state;
      PathJoin(dir, mainFile) in r.files && r.files[PathJoin(dir, mainFile)] == c
  {
  }

  /**
   * After a resolved install whose `npm init` left an object manifest, the
   * manifest names the entry file as `main` and has `type` `"module"`,
   * unless the entry file is itself named `package.json`.
   */
  lemma ManifestPatched(t: State, dir: Path, mainFile: string, sel: seq<string>)
    requires dir in t.dirs && ManifestPath(dir) !in t.dirs
    requires ManifestPath(dir) in t.files && t.files[ManifestPath(dir)].Document?
    requires t.files[ManifestPath(dir)].json.JObj?
    requires mainFile != "package.json"
    ensures var r := AfterInstall(t, dir, mainFile, sel);
      && ManifestPath(dir) in r.files && r.files[ManifestPath(dir)].Document?
      && r.files[ManifestPath(dir)].json == JObj(Patch(t.files[ManifestPath(dir)].json.fields, mainFile))
  {
    var c := Source(MainFileText(sel));
    var s4 := ConnectDB(WriteFile(t, dir, mainFile, c).state, dir).state;
    ManifestSurvivesSetup(t, dir, mainFile, c);
    ManifestParent(dir);
    assert AfterInstall(t, dir, mainFile, sel) == UpdatePackageJson(s4, dir, mainFile).state;
  }

  /** Writing the entry file and the connectDB module leaves the manifest and the backend directory as they were. */
  lemma ManifestSurvivesSetup(t: State, dir: Path, mainFile: string, c: Content)
    requires dir in t.dirs && ManifestPath(dir) !in t.dirs && ManifestPath(dir) in t.files
    requires mainFile != "package.json"
    ensures var s4 := ConnectDB(WriteFile(t, dir, mainFile, c).state, dir).state;
      && dir in s4.dirs && ManifestPath(dir) !in s4.dirs
      && ManifestPath(dir) in s4.files && s4.files[ManifestPath(dir)] == t.files[ManifestPath(dir)]
  {
    var p := ManifestPath(dir);
    assert PathJoin(dir, mainFile) != p by {
      if mainFile != "" {
        PathJoinInjective(dir, mainFile, "package.json");
      } else {
        assert |p| > |dir|;
      }
    }
    PathJoinInjective(dir, "package.json", "db");
    ManifestNotConnectDB(dir);
    ConnectDBParent(dir);
  }
}
