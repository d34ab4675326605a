/**
 * The backend package selection and the command chain that installs it:
 * the catalog filtered by the confirm answers with `express` appended,
 * then `npm init -y`, `npm install <selection>`, `npm install -D nodemon`
 * in the backend directory, the first failure rejecting and skipping the
 * rest.
 */
module Packages {
  import opened Strings
  import opened Seqs
  import opened Manifest
  import opened Effects

  /** The packages offered one confirm question each, in question order. */
  const Catalog: seq<string> :=
    ["mongoose", "cors", "dotenv", "body-parser", "morgan", "jsonwebtoken", "zod",
     "bcryptjs", "cookie-parser", "uuid", "multer"]

  /** Installed whatever the answers. */
  const AlwaysInstalled := "express"

  /** A package is chosen when its confirm question was answered yes; an unanswered one is not. */
  function Chosen(answers: map<string, bool>): string -> bool {
    (pkg: string) => pkg in answers && answers[pkg]
  }

  /** `packages.filter(pkg => answers[pkg])` followed by `push("express")`. */
  function Selection(answers: map<string, bool>): (sel: seq<string>)
    ensures |sel| >= 1 && sel[|sel| - 1] == AlwaysInstalled
  {
    var chosen := Filter(Catalog, Chosen(answers));
    AppendLast(chosen, AlwaysInstalled);
    chosen + [AlwaysInstalled]
  }

  lemma CatalogDistinct()
    ensures Distinct(Catalog)
    ensures AlwaysInstalled !in Catalog
  {
  }

  /** A package is selected exactly when it is a catalog entry answered yes, or it is `express`. */
  lemma SelectionMembers(answers: map<string, bool>, pkg: string)
    ensures pkg in Selection(answers) <==>
      (pkg in Catalog && pkg in answers && answers[pkg]) || pkg == AlwaysInstalled
  {
    FilterMembers(Catalog, Chosen(answers), pkg);
  }

  /**
   * The chosen packages come in catalog order, each once, and `express`
   * comes once, last.
   */
  lemma SelectionOrder(answers: map<string, bool>, i: nat, j: nat)
    requires i < j < |Selection(answers)| - 1
    ensures Selection(answers)[i] in Catalog && Selection(answers)[j] in Catalog
    ensures IndexOf(Catalog, Selection(answers)[i]) < IndexOf(Catalog, Selection(answers)[j])
  {
    var f := Filter(Catalog, Chosen(answers));
    CatalogDistinct();
    FilterKeepsOrder(Catalog, Chosen(answers), i, j);
    assert Selection(answers)[i] == f[i] && Selection(answers)[j] == f[j];
  }

  lemma SelectionDistinct(answers: map<string, bool>)
    ensures Distinct(Selection(answers))
    ensures AlwaysInstalled !in Selection(answers)[..|Selection(answers)| - 1]
  {
    CatalogDistinct();
    FilterDistinct(Catalog, Chosen(answers));
    AppendAbsent(Filter(Catalog, Chosen(answers)), AlwaysInstalled);
    FilterMembers(Catalog, Chosen(answers), AlwaysInstalled);
  }

  /** Declining every question still installs `express`, and only it. */
  lemma NothingChosen(answers: map<string, bool>)
    requires forall pkg :: pkg in Catalog && pkg in answers ==> !answers[pkg]
    ensures Selection(answers) == [AlwaysInstalled]
  {
    FilterNone(Catalog, Chosen(answers));
  }

  /** Accepting every question installs the whole catalog, then `express`. */
  lemma EverythingChosen(answers: map<string, bool>)
    requires forall pkg :: pkg in Catalog ==> pkg in answers && answers[pkg]
    ensures Selection(answers) == Catalog + [AlwaysInstalled]
  {
    FilterAll(Catalog, Chosen(answers));
  }

  // ---------------------------------------------------------------------
  // The install chain

  const DevPackages: seq<string> := ["nodemon"]

  /** `npm install <packages joined by spaces>` in `dir`. */
  function InstallCommand(dir: Path, pkgs: seq<string>): (c: Command)
    ensures c.cwd == dir
    ensures At(c.line, "npm install ", 0)
    ensures forall i :: 0 <= i < |pkgs| ==>
      At(c.line, pkgs[i], |"npm install "| + JoinPos(pkgs, " ", i))
    ensures forall i :: 0 <= i && i + 1 < |pkgs| ==>
      At(c.line, " ", |"npm install "| + JoinPos(pkgs, " ", i) + |pkgs[i]|)
      && JoinPos(pkgs, " ", i + 1) == JoinPos(pkgs, " ", i) + |pkgs[i]| + 1
    ensures pkgs == [] ==> c.line == "npm install "
    ensures pkgs != [] ==>
      && JoinPos(pkgs, " ", 0) == 0
      && |c.line| == |"npm install "| + JoinPos(pkgs, " ", |pkgs| - 1) + |pkgs[|pkgs| - 1]|
  {
    var c := Command("npm install " + Join(pkgs, " "), dir);
    PrefixThenPart("npm install ", Join(pkgs, " "), "");
    assert c.line == "npm install " + Join(pkgs, " ") + "";
    forall i | 0 <= i < |pkgs|
      ensures At(c.line, pkgs[i], |"npm install "| + JoinPos(pkgs, " ", i))
    {
      JoinAt(pkgs, " ", i);
      AtCompose(c.line, Join(pkgs, " "), pkgs[i], |"npm install "|, JoinPos(pkgs, " ", i));
    }
    forall i | 0 <= i && i + 1 < |pkgs|
      ensures At(c.line, " ", |"npm install "| + JoinPos(pkgs, " ", i) + |pkgs[i]|)
      ensures JoinPos(pkgs, " ", i + 1) == JoinPos(pkgs, " ", i) + |pkgs[i]| + 1
    {
      JoinNext(pkgs, " ", i);
      AtCompose(c.line, Join(pkgs, " "), " ", |"npm install "|, JoinPos(pkgs, " ", i) + |pkgs[i]|);
    }
    if pkgs == [] then
      assert Join(pkgs, " ") == "";
      c
    else
      JoinEnds(pkgs, " ");
      c
  }

  /** Declining every question installs exactly `npm install express`. */
  lemma NothingChosenInstallsExpress(dir: Path, answers: map<string, bool>)
    requires forall pkg :: pkg in Catalog && pkg in answers ==> !answers[pkg]
    ensures InstallCommand(dir, Selection(answers)).line == "npm install " + AlwaysInstalled
  {
    NothingChosen(answers);
    JoinSingle(AlwaysInstalled, " ");
  }

  /** `npm install -D <dev packages joined by spaces>` in `dir`. */
  function DevInstallCommand(dir: Path): Command {
    Command("npm install -D " + Join(DevPackages, " "), dir)
  }

  /** The three awaited commands, in order; `name` is the package name `npm init` records. */
  function BackendPlan(dir: Path, name: string, sel: seq<string>): seq<Step> {
    [NpmInit(dir, name), Shell(InstallCommand(dir, sel)), Shell(DevInstallCommand(dir))]
  }

  /** The commands the chain would issue if none failed. */
  function BackendCommands(dir: Path, sel: seq<string>): seq<Command> {
    [NpmInitCommand(dir), InstallCommand(dir, sel), DevInstallCommand(dir)]
  }

  lemma DevInstallLine(dir: Path)
    ensures DevInstallCommand(dir).line == "npm install -D nodemon"
  {
    JoinSingle("nodemon", " ");
    assert DevPackages == ["nodemon"];
  }

  lemma BackendPlanCommands(dir: Path, name: string, sel: seq<string>)
    ensures Commands(BackendPlan(dir, name, sel)) == BackendCommands(dir, sel)
  {
    var plan := BackendPlan(dir, name, sel);
    assert plan[1..] == [Shell(InstallCommand(dir, sel)), Shell(DevInstallCommand(dir))];
    assert plan[1..][1..] == [Shell(DevInstallCommand(dir))];
    assert plan[1..][1..][1..] == [];
    assert Commands(plan[1..][1..]) == [DevInstallCommand(dir)] + Commands([]);
    assert Commands(plan[1..]) == [InstallCommand(dir, sel)] + Commands(plan[1..][1..]);
    assert Commands(plan) == [NpmInitCommand(dir)] + Commands(plan[1..]);
  }

  /**
   * Run in an existing backend directory, the chain issues its commands in
   * order up to and including the first failing one, issues none after it,
   * and resolves exactly when none of the three fails.
   */
  lemma BackendChain(s: State, failing: set<Command>, dir: Path, name: string, sel: seq<string>)
    requires dir in s.dirs
    ensures var o := RunPlan(s, failing, BackendPlan(dir, name, sel));
      && o.state.log == s.log + Issued(BackendCommands(dir, sel), failing)
      && (o.ok <==> forall c :: c in BackendCommands(dir, sel) ==> c !in failing)
  {
    var plan := BackendPlan(dir, name, sel);
    forall step | step in plan
      ensures CommandOf(step).Some? && CommandOf(step).value.cwd in s.dirs
    {
    }
    CommandChain(s, failing, plan);
    BackendPlanCommands(dir, name, sel);
  }

  /** A failing install issues neither the dev install nor anything after; `npm init` came first. */
  lemma InstallFailureStopsChain(s: State, failing: set<Command>, dir: Path, name: string, sel: seq<string>)
    requires dir in s.dirs
    requires NpmInitCommand(dir) !in failing && InstallCommand(dir, sel) in failing
    ensures var o := RunPlan(s, failing, BackendPlan(dir, name, sel));
      && !o.ok
      && o.state.log == s.log + [NpmInitCommand(dir), InstallCommand(dir, sel)]
  {
    var cmds := BackendCommands(dir, sel);
    BackendChain(s, failing, dir, name, sel);
    IssuedStopsAtFailure(cmds, failing, 1);
    assert cmds[..2] == [NpmInitCommand(dir), InstallCommand(dir, sel)];
  }
}
