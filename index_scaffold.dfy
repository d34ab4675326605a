/**
 * The earlier generator (`index.js`): the same folders, a fixed one-line
 * entry file `app.js` written before anything is installed, a larger
 * catalog with `express` among the questions and nothing appended, no
 * install at all when nothing is chosen, and an optional Vite project that
 * always uses the React template.
 */
module IndexScaffold {
  import opened Seqs
  import opened Manifest
  import opened Effects
  import opened Workspace
  import opened Packages
  import opened Scaffold

  /** The packages offered one confirm question each, in question order. */
  const IndexCatalog: seq<string> :=
    ["express", "mongoose", "cors", "dotenv", "body-parser", "method-override", "axios", "morgan",
     "jsonwebtoken", "zod", "bcryptjs", "express-validator", "cookie-parser", "uuid", "multer"]

  const IndexMainFile := "app.js"
  const IndexMainText := "// Your main file content goes here\n"
  const ViteTemplate := "react"

  /** `packages.filter(pkg => answers[pkg])`, with nothing appended. */
  function IndexSelection(answers: map<string, bool>): seq<string> {
    Filter(IndexCatalog, Chosen(answers))
  }

  /** No commands for an empty selection, otherwise the three-command chain. */
  function IndexPlan(dir: Path, name: string, sel: seq<string>): seq<Step> {
    if sel == [] then [] else BackendPlan(dir, name, sel)
  }

  /** Everything the user answers during a run. */
  datatype IndexAnswers = IndexAnswers(
    mainFolders: map<string, string>,
    subfolders: map<string, string>,
    packages: map<string, bool>,
    installVite: bool)

  predicate IndexComplete(a: IndexAnswers) {
    AnswersAll(MainFolders, a.mainFolders) && AnswersAll(BackendFolders, a.subfolders)
  }

  // ---------------------------------------------------------------------
  // Selection

  lemma IndexCatalogDistinct()
    ensures Distinct(IndexCatalog)
  {
  }

  /**
   * A package is selected exactly when it is in the catalog and answered
   * yes — `express` included, which is installed only when confirmed.
   */
  lemma IndexSelectionMembers(answers: map<string, bool>, pkg: string)
    ensures pkg in IndexSelection(answers) <==> pkg in IndexCatalog && pkg in answers && answers[pkg]
  {
    FilterMembers(IndexCatalog, Chosen(answers), pkg);
  }

  /** The selection keeps catalog order and has no duplicates. */
  lemma IndexSelectionOrder(answers: map<string, bool>, i: nat, j: nat)
    requires i < j < |IndexSelection(answers)|
    ensures IndexSelection(answers)[i] in IndexCatalog && IndexSelection(answers)[j] in IndexCatalog
    ensures IndexOf(IndexCatalog, IndexSelection(answers)[i]) < IndexOf(IndexCatalog, IndexSelection(answers)[j])
  {
    IndexCatalogDistinct();
    FilterKeepsOrder(IndexCatalog, Chosen(answers), i, j);
  }

  lemma IndexSelectionDistinct(answers: map<string, bool>)
    ensures Distinct(IndexSelection(answers))
  {
    IndexCatalogDistinct();
    FilterDistinct(IndexCatalog, Chosen(answers));
  }

  // ---------------------------------------------------------------------
  // The install step

  /** Nothing chosen: no command is issued, nothing changes, and the step resolves. */
  lemma EmptySelectionIssuesNothing(s: State, failing: set<Command>, dir: Path, name: string, answers: map<string, bool>)
    requires forall pkg :: pkg in IndexCatalog && pkg in answers ==> !answers[pkg]
    ensures RunPlan(s, failing, IndexPlan(dir, name, IndexSelection(answers))) == Outcome(s, true)
  {
    FilterNone(IndexCatalog, Chosen(answers));
  }

  /**
   * Something chosen, in an existing directory: the chain issues its
   * commands up to the first failing one and resolves exactly when none fails.
   */
  lemma IndexChain(s: State, failing: set<Command>, dir: Path, name: string, sel: seq<string>)
    requires dir in s.dirs && sel != []
    ensures var o := RunPlan(s, failing, IndexPlan(dir, name, sel));
      && o.state.log == s.log + Issued(BackendCommands(dir, sel), failing)
      && (o.ok <==> forall c :: c in BackendCommands(dir, sel) ==> c !in failing)
  {
    BackendChain(s, failing, dir, name, sel);
  }

  // ---------------------------------------------------------------------
  // The run, as transitions

  /** After the top-level folders: sub-folders (failure caught), `app.js`, the install step, then Vite if confirmed. */
  function IndexBackend(t: State, failing: set<Command>, cwd: Path, names: seq<string>, a: IndexAnswers): Outcome
    requires IndexComplete(a) && |names| == 2
  {
    var dir := PathJoin(cwd, names[0]);
    var s1 := MkdirEach(t, dir, Answered(BackendFolders, a.subfolders)).state;
    var s2 := WriteFile(s1, dir, IndexMainFile, Source(IndexMainText)).state;
    InstallThenVite(s2, failing, cwd, names, IndexSelection(a.packages), a.installVite)
  }

  /** The install step for a selection, then — if it resolved and the user confirmed — the Vite scaffold. */
  function InstallThenVite(s2: State, failing: set<Command>, cwd: Path, names: seq<string>, sel: seq<string>,
                           installVite: bool): Outcome
    requires |names| == 2
  {
    var inst := RunPlan(s2, failing, IndexPlan(PathJoin(cwd, names[0]), names[0], sel));
    if !inst.ok || !installVite then inst
    else Perform(inst.state, failing, CreateVite(cwd, names[1], ViteTemplate))
  }

  /** The whole run; `ok` is false when the outer handler caught an error. */
  function IndexRun(s: State, failing: set<Command>, cwd: Path, a: IndexAnswers): Outcome
    requires IndexComplete(a)
  {
    var names := Answered(MainFolders, a.mainFolders);
    var roots := MkdirEach(s, cwd, names);
    if !roots.ok then roots
    else IndexBackend(roots.state, failing, cwd, names, a)
  }

  // ---------------------------------------------------------------------
  // The run, as methods over a workspace

  method IndexCreateMainFile(w: Workspace, dir: Path)
    modifies w
    ensures w.Snapshot() == WriteFile(old(w.Snapshot()), dir, IndexMainFile, Source(IndexMainText)).state
  {
    var _ := w.WriteFile(dir, IndexMainFile, Source(IndexMainText));
  }

  /** `promptAndInstallPackages`: the selection, then the chain unless it is empty; `ok` is false when it rejects. */
  method IndexPromptAndInstallPackages(w: Workspace, dir: Path, name: string, answers: map<string, bool>)
    returns (ok: bool)
    modifies w
    ensures w.Snapshot() == RunPlan(old(w.Snapshot()), w.failing, IndexPlan(dir, name, IndexSelection(answers))).state
    ensures ok == RunPlan(old(w.Snapshot()), w.failing, IndexPlan(dir, name, IndexSelection(answers))).ok
  {
    var selected := Filter(IndexCatalog, Chosen(answers));
    if |selected| > 0 {
      ok := w.RunPlan(BackendPlan(dir, name, selected));
    } else {
      ok := true;
    }
  }

  /** `createFrontendStructure`: the Vite scaffold with the React template; its rejection is not caught here. */
  method IndexCreateFrontendStructure(w: Workspace, cwd: Path, folder: string) returns (ok: bool)
    modifies w
    ensures w.Snapshot() == Perform(old(w.Snapshot()), w.failing, CreateVite(cwd, folder, ViteTemplate)).state
    ensures ok == Perform(old(w.Snapshot()), w.failing, CreateVite(cwd, folder, ViteTemplate)).ok
  {
    ok := w.Perform(CreateVite(cwd, folder, ViteTemplate));
  }

  /** `createMainDirectory`: the whole run. */
  method IndexCreateMainDirectory(w: Workspace, cwd: Path, a: IndexAnswers) returns (ok: bool)
    requires IndexComplete(a)
    modifies w
    ensures w.Snapshot() == IndexRun(old(w.Snapshot()), w.failing, cwd, a).state
    ensures ok == IndexRun(old(w.Snapshot()), w.failing, cwd, a).ok
  {
    var names := PromptMainDirectory(MainFolders, a.mainFolders);
    assert names == Answered(MainFolders, a.mainFolders);
    ok := w.MkdirEach(cwd, names);
    if !ok {
      return;
    }
    var dir := PathJoin(cwd, names[0]);
    CreateBackendStructure(w, dir, a.subfolders);
    IndexCreateMainFile(w, dir);
    ok := IndexPromptAndInstallPackages(w, dir, names[0], a.packages);
    if !ok {
      return;
    }
    if a.installVite {
      ok := IndexCreateFrontendStructure(w, cwd, names[1]);
    }
  }

  // ---------------------------------------------------------------------
  // Properties of the run

  /**
   * `app.js` is written before the install step, and nothing later removes
   * or changes it, whether the install resolves or not and whether Vite runs
   * or not.
   */
  lemma MainFileSurvives(t: State, failing: set<Command>, cwd: Path, names: seq<string>, a: IndexAnswers)
    requires IndexComplete(a) && |names| == 2
    requires PathJoin(cwd, names[0]) in t.dirs
    requires PathJoin(PathJoin(cwd, names[0]), IndexMainFile) !in
             MkdirEach(t, PathJoin(cwd, names[0]), Answered(BackendFolders, a.subfolders)).state.dirs
    ensures var p := PathJoin(PathJoin(cwd, names[0]), IndexMainFile);
      var o := IndexBackend(t, failing, cwd, names, a);
      p in o.state.files && o.state.files[p] == Source(IndexMainText)
  {
    var dir := PathJoin(cwd, names[0]);
    var sub := MkdirEach(t, dir, Answered(BackendFolders, a.subfolders));
    MkdirEachGrows(t, dir, Answered(BackendFolders, a.subfolders));
    MainFileParent(dir);
    var s2 := WriteFile(sub.state, dir, IndexMainFile, Source(IndexMainText)).state;
    assert IndexBackend(t, failing, cwd, names, a)
        == InstallThenVite(s2, failing, cwd, names, IndexSelection(a.packages), a.installVite);
    FilesKept(s2, failing, cwd, names, IndexSelection(a.packages), a.installVite);
  }

  /** `app.js` is written directly into the backend directory. */
  lemma MainFileParent(dir: Path)
    ensures ParentOf(dir, IndexMainFile) == dir
  {
    SingleSegment(dir, IndexMainFile);
  }

  /** The install step and the Vite scaffold keep every existing file as it is. */
  lemma FilesKept(s2: State, failing: set<Command>, cwd: Path, names: seq<string>, sel: seq<string>, installVite: bool)
    requires |names| == 2
    ensures var o := InstallThenVite(s2, failing, cwd, names, sel, installVite);
      forall p :: p in s2.files ==> p in o.state.files && o.state.files[p] == s2.files[p]
  {
    var plan := IndexPlan(PathJoin(cwd, names[0]), names[0], sel);
    forall step | step in plan ensures CommandOf(step).Some? {
    }
    CommandChainFiles(s2, failing, plan);
    var inst := RunPlan(s2, failing, plan);
    if inst.ok && installVite {
      PerformCommand(inst.state, failing, CreateVite(cwd, names[1], ViteTemplate));
    }
  }

  /**
   * A rejected install ends the run before the Vite question: the log holds
   * the install commands up to the failing one and no Vite command.
   */
  lemma IndexInstallFailureSkipsVite(s2: State, failing: set<Command>, cwd: Path, names: seq<string>,
                                     sel: seq<string>, installVite: bool)
    requires |names| == 2
    requires PathJoin(cwd, names[0]) in s2.dirs && sel != []
    requires exists c :: c in BackendCommands(PathJoin(cwd, names[0]), sel) && c in failing
    ensures var o := InstallThenVite(s2, failing, cwd, names, sel, installVite);
      && !o.ok
      && o.state.log == s2.log + Issued(BackendCommands(PathJoin(cwd, names[0]), sel), failing)
  {
    IndexChain(s2, failing, PathJoin(cwd, names[0]), names[0], sel);
  }

  /**
   * With the install resolved, the Vite command is issued exactly when the
   * user confirmed, always with the React template, in the working
   * directory, and its failure is the run's failure.
   */
  lemma ViteOnlyWhenConfirmed(s2: State, failing: set<Command>, cwd: Path, names: seq<string>,
                              sel: seq<string>, installVite: bool)
    requires |names| == 2
    requires cwd in s2.dirs && PathJoin(cwd, names[0]) in s2.dirs
    requires forall c :: c in BackendCommands(PathJoin(cwd, names[0]), sel) ==> c !in failing
    ensures var installed := if sel == [] then [] else BackendCommands(PathJoin(cwd, names[0]), sel);
      var vite := ViteCommand(cwd, names[1], ViteTemplate);
      var o := InstallThenVite(s2, failing, cwd, names, sel, installVite);
      && o.state.log == s2.log + installed + (if installVite then [vite] else [])
      && (o.ok <==> !installVite || vite !in failing)
  {
    var dir := PathJoin(cwd, names[0]);
    var plan := IndexPlan(dir, names[0], sel);
    var inst := RunPlan(s2, failing, plan);
    if sel != [] {
      IndexChain(s2, failing, dir, names[0], sel);
      IssuedAll(BackendCommands(dir, sel), failing);
    }
    forall step | step in plan ensures CommandOf(step).Some? {
    }
    CommandChainFiles(s2, failing, plan);
    assert inst.ok;
    var installed := if sel == [] then [] else BackendCommands(dir, sel);
    assert inst.state.log == s2.log + installed;
    if installVite {
      var vite := ViteCommand(cwd, names[1], ViteTemplate);
      PerformCommand(inst.state, failing, CreateVite(cwd, names[1], ViteTemplate));
      assert s2.log + installed + [vite] == inst.state.log + [vite];
    }
  }
}
