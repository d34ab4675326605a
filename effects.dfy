/**
 * What the generator does to the outside world, as values: the directories
 * and files under the working directory, and the log of external commands
 * issued through `child_process.exec`. Every operation is a transition
 * from one `State` to the next together with whether it succeeded
 * (resolved) or failed (threw / rejected).
 *
 * Whether an external command fails is given by the set `failing`; a
 * command also fails when its working directory does not exist.
 */
module Effects {
  import opened Manifest
  import opened Seqs

  type Path = string

  /** `path.join(base, name)`: an empty segment adds nothing. */
  function PathJoin(base: Path, name: string): Path {
    if name == "" then base else base + "/" + name
  }

  /** The directory part of a relative name: the text before its last `/`, or empty for a single segment. */
  function NameDir(name: string): (d: string)
    ensures '/' !in name ==> d == ""
    decreases |name|
  {
    if name == "" then ""
    else if name[|name| - 1] == '/' then name[..|name| - 1]
    else NameDir(name[..|name| - 1])
  }

  /** For a name with `/`, the directory part is exactly the text before the last `/`. */
  lemma {:induction false} NameDirLastSlash(name: string)
    requires '/' in name
    ensures var d := NameDir(name);
      && |d| < |name| && name[..|d|] == d && name[|d|] == '/'
      && '/' !in name[|d| + 1..]
    decreases |name|
  {
    var last := name[|name| - 1];
    if last != '/' {
      var init := name[..|name| - 1];
      assert name == init + [last];
      NameDirLastSlash(init);
      var d := NameDir(init);
      assert name[|d| + 1..] == init[|d| + 1..] + [last];
    }
  }

  /** The directory that must exist for `path.join(base, name)` to be created or written. */
  function ParentOf(base: Path, name: string): Path {
    PathJoin(base, NameDir(name))
  }

  /** A name without `/` is created or written directly in `base`. */
  lemma SingleSegment(base: Path, name: string)
    requires '/' !in name
    ensures ParentOf(base, name) == base
  {
  }

  /** One invocation of `exec(line, { cwd })`. */
  datatype Command = Command(line: string, cwd: Path)

  /**
   * A file's content: text that `JSON.parse` rejects (generated source,
   * configuration, stylesheets) or a JSON document (package.json).
   */
  datatype Content = Source(text: string) | Document(json: Json)

  datatype State = State(dirs: set<Path>, files: map<Path, Content>, log: seq<Command>)

  /** The state after an operation, and whether the operation succeeded. */
  datatype Outcome = Outcome(state: State, ok: bool)

  /** One awaited step of a plan. */
  datatype Step =
    | Shell(cmd: Command)
      /** `npm init -y` in `dir`, for a package called `name`. */
    | NpmInit(dir: Path, name: string)
      /** `npm create vite@latest <name> -- --template <template>` in `cwd`. */
    | CreateVite(cwd: Path, name: string, template: string)
      /** `fs.writeFileSync(path.join(dir, name), content)` */
    | Write(dir: Path, name: string, content: Content)

  function NpmInitCommand(dir: Path): Command {
    Command("npm init -y", dir)
  }

  function ViteCommand(cwd: Path, name: string, template: string): Command {
    Command("npm create vite@latest " + name + " -- --template " + template, cwd)
  }

  /** The external command a step issues, if it issues one. */
  function CommandOf(step: Step): Option<Command> {
    match step
    case Shell(c) => Some(c)
    case NpmInit(dir, _) => Some(NpmInitCommand(dir))
    case CreateVite(cwd, name, template) => Some(ViteCommand(cwd, name, template))
    case Write(_, _, _) => None
  }

  /** The commands of a plan, in plan order. */
  function Commands(plan: seq<Step>): seq<Command> {
    if plan == [] then []
    else
      (match CommandOf(plan[0]) case Some(c) => [c] case None => []) + Commands(plan[1..])
  }

  /** The `package.json` that `npm init -y` leaves behind: npm's defaults. */
  function NpmDefaults(name: string): Json {
    JObj(map["name" := JStr(name), "version" := JStr("1.0.0"), "main" := JStr("index.js"),
             "license" := JStr("ISC")])
  }

  // ---------------------------------------------------------------------
  // Filesystem operations

  /** `fs.mkdirSync(path.join(base, name))`: fails if the parent is missing or the path exists. */
  function Mkdir(s: State, base: Path, name: string): Outcome {
    var p := PathJoin(base, name);
    if ParentOf(base, name) in s.dirs && p !in s.dirs && p !in s.files then Outcome(s.(dirs := s.dirs + {p}), true)
    else Outcome(s, false)
  }

  /**
   * `fs.mkdirSync(path.join(base, name), { recursive: true })`: creates what
   * is missing of `base` and `base/name`; fails only if one of them is a file.
   */
  function MkdirAll(s: State, base: Path, name: string): Outcome {
    var p := PathJoin(base, name);
    if base !in s.files && p !in s.files then Outcome(s.(dirs := s.dirs + {base, p}), true)
    else Outcome(s, false)
  }

  /**
   * `names.forEach(n => fs.mkdirSync(path.join(base, n)))`: the first
   * failure throws out of the loop; directories made before it remain.
   */
  function MkdirEach(s: State, base: Path, names: seq<string>): Outcome
    decreases |names|
  {
    if names == [] then Outcome(s, true)
    else
      var o := Mkdir(s, base, names[0]);
      if !o.ok then o else MkdirEach(o.state, base, names[1..])
  }

  /** `fs.writeFileSync(path.join(dir, name), content)`: fails if the file's directory is missing or the path is a directory. */
  function WriteFile(s: State, dir: Path, name: string, content: Content): Outcome {
    var p := PathJoin(dir, name);
    if ParentOf(dir, name) in s.dirs && p !in s.dirs then Outcome(s.(files := s.files[p := content]), true)
    else Outcome(s, false)
  }

  // ---------------------------------------------------------------------
  // External commands and plans

  /** Issue one command; it succeeds unless it is failing or its directory does not exist. */
  function Exec(s: State, failing: set<Command>, c: Command): Outcome {
    Outcome(s.(log := s.log + [c]), c.cwd in s.dirs && c !in failing)
  }

  function Perform(s: State, failing: set<Command>, step: Step): Outcome {
    match step
    case Shell(c) => Exec(s, failing, c)
    case NpmInit(dir, name) =>
      var o := Exec(s, failing, NpmInitCommand(dir));
      var p := PathJoin(dir, "package.json");
      if !o.ok || p in o.state.files || p in o.state.dirs then o
      else Outcome(o.state.(files := o.state.files[p := Document(NpmDefaults(name))]), true)
    case CreateVite(cwd, name, template) =>
      var o := Exec(s, failing, ViteCommand(cwd, name, template));
      var dir := PathJoin(cwd, name);
      if !o.ok then o
      else Outcome(o.state.(dirs := o.state.dirs + {dir, PathJoin(dir, "src")}), true)
    case Write(dir, name, content) => WriteFile(s, dir, name, content)
  }

  /** The steps awaited one after another; the first failure rejects and skips the rest. */
  function RunPlan(s: State, failing: set<Command>, plan: seq<Step>): Outcome
    decreases |plan|
  {
    if plan == [] then Outcome(s, true)
    else
      var o := Perform(s, failing, plan[0]);
      if !o.ok then o else RunPlan(o.state, failing, plan[1..])
  }

  /** A plan whose first step succeeds continues with the rest from the state that step left. */
  lemma RunPlanStep(s: State, failing: set<Command>, plan: seq<Step>, k: nat)
    requires k < |plan| && Perform(s, failing, plan[k]).ok
    ensures RunPlan(s, failing, plan[k..]) == RunPlan(Perform(s, failing, plan[k]).state, failing, plan[k + 1..])
  {
    assert plan[k..][0] == plan[k];
    assert plan[k..][1..] == plan[k + 1..];
  }

  /** A plan made of two parts: if the first resolves, the second runs from where it left off. */
  lemma {:induction false} RunPlanAppend(s: State, failing: set<Command>, a: seq<Step>, b: seq<Step>)
    ensures RunPlan(s, failing, a + b) ==
      (var o := RunPlan(s, failing, a); if o.ok then RunPlan(o.state, failing, b) else o)
    decreases |a|
  {
    if a == [] {
      assert a + b == b;
    } else {
      assert (a + b)[0] == a[0];
      assert (a + b)[1..] == a[1..] + b;
      var o := Perform(s, failing, a[0]);
      if o.ok {
        RunPlanAppend(o.state, failing, a[1..], b);
      }
    }
  }

  /** The commands of a chain that are issued: up to and including the first failing one. */
  function Issued(cmds: seq<Command>, failing: set<Command>): seq<Command> {
    if cmds == [] then []
    else [cmds[0]] + (if cmds[0] in failing then [] else Issued(cmds[1..], failing))
  }

  // ---------------------------------------------------------------------
  // Directory creation

  /** The directories a list of names denotes under `base`. */
  function Created(base: Path, names: seq<string>): set<Path> {
    set n | n in names :: PathJoin(base, n)
  }

  /** A successful run of the loop creates exactly one directory per name; nothing else changes. */
  lemma {:induction false} MkdirEachSuccess(s: State, base: Path, names: seq<string>)
    requires MkdirEach(s, base, names).ok
    ensures MkdirEach(s, base, names).state == s.(dirs := s.dirs + Created(base, names))
    ensures forall i :: 0 <= i < |names| ==> PathJoin(base, names[i]) !in s.dirs
    decreases |names|
  {
    if names != [] {
      var o := Mkdir(s, base, names[0]);
      MkdirEachSuccess(o.state, base, names[1..]);
      assert Created(base, names) == {PathJoin(base, names[0])} + Created(base, names[1..]) by {
        assert names == [names[0]] + names[1..];
      }
      forall i | 0 <= i < |names| ensures PathJoin(base, names[i]) !in s.dirs {
        if i > 0 { assert names[i] == names[1..][i - 1]; }
      }
    }
  }

  /**
   * The loop fails exactly when some name cannot be made, and then it has
   * made exactly the names before the first such one, which remain.
   */
  lemma {:induction false} MkdirEachFailure(s: State, base: Path, names: seq<string>)
    requires !MkdirEach(s, base, names).ok
    ensures exists k ::
      && 0 <= k < |names|
      && MkdirEach(s, base, names).state == s.(dirs := s.dirs + Created(base, names[..k]))
      && !Mkdir(MkdirEach(s, base, names).state, base, names[k]).ok
    decreases |names|
  {
    var o := Mkdir(s, base, names[0]);
    var r := MkdirEach(s, base, names);
    if !o.ok {
      assert names[..0] == [];
      assert Created(base, names[..0]) == {};
      assert r.state == s.(dirs := s.dirs + Created(base, names[..0]));
    } else {
      var rest := names[1..];
      MkdirEachFailure(o.state, base, rest);
      assert r == MkdirEach(o.state, base, rest);
      var k :| 0 <= k < |rest|
        && r.state == o.state.(dirs := o.state.dirs + Created(base, rest[..k]))
        && !Mkdir(r.state, base, rest[k]).ok;
      var first, made := PathJoin(base, names[0]), Created(base, rest[..k]);
      CreatedPrefix(base, names, k + 1);
      assert o.state == s.(dirs := s.dirs + {first});
      assert (s.dirs + {first}) + made == s.dirs + ({first} + made);
      assert r.state == s.(dirs := s.dirs + Created(base, names[..k + 1]));
      assert names[k + 1] == rest[k];
    }
  }

  /** The directories of a non-empty prefix: the first name's, then those of the rest of the prefix. */
  lemma CreatedPrefix(base: Path, names: seq<string>, n: nat)
    requires 0 < n <= |names|
    ensures Created(base, names[..n]) == {PathJoin(base, names[0])} + Created(base, names[1..][..n - 1])
  {
    TakeTail(names, n);
    CreatedCons(base, names[..n]);
  }

  /** The first name's directory, then the rest's. */
  lemma CreatedCons(base: Path, names: seq<string>)
    requires names != []
    ensures Created(base, names) == {PathJoin(base, names[0])} + Created(base, names[1..])
  {
    assert names == [names[0]] + names[1..];
    forall n ensures n in names <==> n == names[0] || n in names[1..] {
    }
  }

  /**
   * With every name's parent present and every target absent and distinct, the loop
   * succeeds; run a second time on its own result it fails at once and
   * changes nothing (creation is not idempotent).
   */
  lemma {:induction false} MkdirEachFresh(s: State, base: Path, names: seq<string>)
    requires forall n :: n in names ==> ParentOf(base, n) in s.dirs
    requires forall n :: n in names ==> n != ""
    requires Distinct(names)
    requires forall n :: n in names ==> PathJoin(base, n) !in s.dirs && PathJoin(base, n) !in s.files
    ensures MkdirEach(s, base, names).ok
    ensures names != [] ==> MkdirEach(MkdirEach(s, base, names).state, base, names)
                            == Outcome(MkdirEach(s, base, names).state, false)
    decreases |names|
  {
    if names != [] {
      var o := Mkdir(s, base, names[0]);
      assert o.ok;
      forall n | n in names[1..] ensures PathJoin(base, n) !in o.state.dirs {
        assert n != names[0] by {
          var i :| 0 <= i < |names[1..]| && names[1..][i] == n;
          assert names[i + 1] == n;
        }
        assert names[0] in names && n in names;
        PathJoinInjective(base, n, names[0]);
      }
      assert Distinct(names[1..]) by {
        forall a, b | 0 <= a < b < |names[1..]| ensures names[1..][a] != names[1..][b] {
          assert names[1..][a] == names[a + 1] && names[1..][b] == names[b + 1];
        }
      }
      MkdirEachFresh(o.state, base, names[1..]);
      var r := MkdirEach(s, base, names);
      MkdirEachSuccess(s, base, names);
      assert PathJoin(base, names[0]) in r.state.dirs;
    }
  }

  /** Making directories never removes one and never touches files or the log. */
  lemma {:induction false} MkdirEachGrows(s: State, base: Path, names: seq<string>)
    ensures var o := MkdirEach(s, base, names);
      s.dirs <= o.state.dirs && o.state.files == s.files && o.state.log == s.log
    decreases |names|
  {
    if names != [] {
      var o := Mkdir(s, base, names[0]);
      MkdirEachGrows(o.state, base, names[1..]);
    }
  }

  lemma PathJoinInjective(base: Path, a: string, b: string)
    requires a != "" && b != "" && a != b
    ensures PathJoin(base, a) != PathJoin(base, b)
  {
    var pre := base + "/";
    var x, y := pre + a, pre + b;
    assert PathJoin(base, a) == x && PathJoin(base, b) == y;
    assert x[|pre|..] == a;
    assert y[|pre|..] == b;
  }

  // ---------------------------------------------------------------------
  // Command chains

  /** A chain that meets no failure issues every command. */
  lemma {:induction false} IssuedAll(cmds: seq<Command>, failing: set<Command>)
    requires forall c :: c in cmds ==> c !in failing
    ensures Issued(cmds, failing) == cmds
  {
    if cmds != [] {
      IssuedAll(cmds[1..], failing);
      assert [cmds[0]] + cmds[1..] == cmds;
    }
  }

  /** A chain issues the commands up to its first failing one and none after it. */
  lemma {:induction false} IssuedStopsAtFailure(cmds: seq<Command>, failing: set<Command>, k: nat)
    requires k < |cmds| && cmds[k] in failing
    requires forall j :: 0 <= j < k ==> cmds[j] !in failing
    ensures Issued(cmds, failing) == cmds[..k + 1]
  {
    if k > 0 {
      IssuedStopsAtFailure(cmds[1..], failing, k - 1);
      assert cmds[..k + 1] == [cmds[0]] + cmds[1..][..k];
    }
  }

  /** One command step: logged, succeeds exactly when it is not failing in an existing directory. */
  lemma PerformCommand(s: State, failing: set<Command>, step: Step)
    requires CommandOf(step).Some?
    ensures var o, c := Perform(s, failing, step), CommandOf(step).value;
      && o.state.log == s.log + [c]
      && (o.ok <==> c.cwd in s.dirs && c !in failing)
      && s.dirs <= o.state.dirs
      && (forall p :: p in s.files ==> p in o.state.files && o.state.files[p] == s.files[p])
      && (forall p :: p in o.state.files && p !in s.files ==> step.NpmInit? && p == PathJoin(step.dir, "package.json"))
  {
  }

  /**
   * A chain of commands, all run in existing directories, issues exactly
   * `Issued(...)`: everything up to the first failing command. It resolves
   * exactly when no command fails.
   */
  lemma {:induction false} CommandChain(s: State, failing: set<Command>, plan: seq<Step>)
    requires forall step :: step in plan ==> CommandOf(step).Some? && CommandOf(step).value.cwd in s.dirs
    ensures RunPlan(s, failing, plan).state.log == s.log + Issued(Commands(plan), failing)
    ensures RunPlan(s, failing, plan).ok <==> forall c :: c in Commands(plan) ==> c !in failing
    decreases |plan|
  {
    if plan != [] {
      var step := plan[0];
      var c := CommandOf(step).value;
      assert Commands(plan) == [c] + Commands(plan[1..]);
      var o := Perform(s, failing, step);
      PerformCommand(s, failing, step);
      var allPass := forall x :: x in Commands(plan) ==> x !in failing;
      assert allPass <==> c !in failing && forall x :: x in Commands(plan[1..]) ==> x !in failing;
      if o.ok {
        assert RunPlan(s, failing, plan) == RunPlan(o.state, failing, plan[1..]);
        assert forall st :: st in plan[1..] ==> st in plan;
        CommandChain(o.state, failing, plan[1..]);
        var rest := Issued(Commands(plan[1..]), failing);
        assert Issued(Commands(plan), failing) == [c] + rest;
        AppendAssoc(s.log, [c], rest);
      } else {
        assert RunPlan(s, failing, plan) == o;
        assert Issued(Commands(plan), failing) == [c];
        assert step in plan;
      }
    }
  }

  /**
   * A chain of commands never removes a directory and never changes an
   * existing file; the only file that can appear is a `package.json` left
   * by `npm init -y`.
   */
  lemma {:induction false} CommandChainFiles(s: State, failing: set<Command>, plan: seq<Step>)
    requires forall step :: step in plan ==> CommandOf(step).Some?
    ensures s.dirs <= RunPlan(s, failing, plan).state.dirs
    ensures forall p :: p in s.files ==>
      p in RunPlan(s, failing, plan).state.files && RunPlan(s, failing, plan).state.files[p] == s.files[p]
    ensures forall p :: p in RunPlan(s, failing, plan).state.files && p !in s.files ==>
      exists step :: step in plan && step.NpmInit? && p == PathJoin(step.dir, "package.json")
    decreases |plan|
  {
    if plan != [] {
      var step := plan[0];
      var o := Perform(s, failing, step);
      PerformCommand(s, failing, step);
      var r := RunPlan(s, failing, plan);
      if o.ok {
        assert r == RunPlan(o.state, failing, plan[1..]);
        assert forall st :: st in plan[1..] ==> st in plan;
        CommandChainFiles(o.state, failing, plan[1..]);
        forall p | p in r.state.files && p !in s.files
          ensures exists st :: st in plan && st.NpmInit? && p == PathJoin(st.dir, "package.json")
        {
          if p !in o.state.files {
            var st :| st in plan[1..] && st.NpmInit? && p == PathJoin(st.dir, "package.json");
            assert st in plan;
          } else {
            assert step in plan;
          }
        }
      } else {
        assert step in plan;
      }
    }
  }
}
