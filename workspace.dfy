/**
 * The mutable side of the generator: one object holding the filesystem and
 * the command log, whose methods perform the operations of `Effects` in
 * place. Each method is proved to leave exactly the state the corresponding
 * transition in `Effects` describes.
 */
module Workspace {
  import opened Manifest
  import opened Effects

  class Workspace {
    var dirs: set<Path>
    var files: map<Path, Content>
    var log: seq<Command>
    /** The commands whose process exits non-zero. */
    const failing: set<Command>

    /** The current state as a value. */
    function Snapshot(): State
      reads this
    {
      State(dirs, files, log)
    }

    constructor (start: State, failing: set<Command>)
      ensures Snapshot() == start && this.failing == failing
    {
      dirs, files, log := start.dirs, start.files, start.log;
      this.failing := failing;
    }

    method Mkdir(base: Path, name: string) returns (ok: bool)
      modifies this
      ensures Snapshot() == Effects.Mkdir(old(Snapshot()), base, name).state
      ensures ok == Effects.Mkdir(old(Snapshot()), base, name).ok
    {
      var p := PathJoin(base, name);
      ok := ParentOf(base, name) in dirs && p !in dirs && p !in files;
      if ok {
        dirs := dirs + {p};
      }
    }

    method MkdirAll(base: Path, name: string) returns (ok: bool)
      modifies this
      ensures Snapshot() == Effects.MkdirAll(old(Snapshot()), base, name).state
      ensures ok == Effects.MkdirAll(old(Snapshot()), base, name).ok
    {
      var p := PathJoin(base, name);
      ok := base !in files && p !in files;
      if ok {
        dirs := dirs + {base, p};
      }
    }

    /** `names.forEach(n => fs.mkdirSync(path.join(base, n)))`, stopping at the first throw. */
    method MkdirEach(base: Path, names: seq<string>) returns (ok: bool)
      modifies this
      ensures Snapshot() == Effects.MkdirEach(old(Snapshot()), base, names).state
      ensures ok == Effects.MkdirEach(old(Snapshot()), base, names).ok
    {
      var i := 0;
      while i < |names|
        invariant 0 <= i <= |names|
        invariant Effects.MkdirEach(old(Snapshot()), base, names) == Effects.MkdirEach(Snapshot(), base, names[i..])
      {
        assert names[i..][1..] == names[i + 1..];
        var made := Mkdir(base, names[i]);
        if !made {
          return false;
        }
        i := i + 1;
      }
      ok := true;
    }

    method WriteFile(dir: Path, name: string, content: Content) returns (ok: bool)
      modifies this
      ensures Snapshot() == Effects.WriteFile(old(Snapshot()), dir, name, content).state
      ensures ok == Effects.WriteFile(old(Snapshot()), dir, name, content).ok
    {
      var p := PathJoin(dir, name);
      ok := ParentOf(dir, name) in dirs && p !in dirs;
      if ok {
        files := files[p := content];
      }
    }

    /** `fs.readFileSync(p)`: the content, or None when there is no such file. */
    method ReadFile(p: Path) returns (r: Option<Content>)
      ensures r.Some? <==> p in files
      ensures r.Some? ==> r.value == files[p]
    {
      r := if p in files then Some(files[p]) else None;
    }

    method Exec(c: Command) returns (ok: bool)
      modifies this
      ensures Snapshot() == Effects.Exec(old(Snapshot()), failing, c).state
      ensures ok == Effects.Exec(old(Snapshot()), failing, c).ok
    {
      ok := c.cwd in dirs && c !in failing;
      log := log + [c];
    }

    method Perform(step: Step) returns (ok: bool)
      modifies this
      ensures Snapshot() == Effects.Perform(old(Snapshot()), failing, step).state
      ensures ok == Effects.Perform(old(Snapshot()), failing, step).ok
    {
      match step
      case Shell(c) =>
        ok := Exec(c);
      case NpmInit(dir, name) =>
        ok := Exec(NpmInitCommand(dir));
        var p := PathJoin(dir, "package.json");
        if ok && p !in files && p !in dirs {
          files := files[p := Document(NpmDefaults(name))];
        }
      case CreateVite(cwd, name, template) =>
        ok := Exec(ViteCommand(cwd, name, template));
        if ok {
          var dir := PathJoin(cwd, name);
          dirs := dirs + {dir, PathJoin(dir, "src")};
        }
      case Write(dir, name, content) =>
        ok := WriteFile(dir, name, content);
    }

    /** Await the steps one after another; the first failure rejects and skips the rest. */
    method RunPlan(plan: seq<Step>) returns (ok: bool)
      modifies this
      ensures Snapshot() == Effects.RunPlan(old(Snapshot()), failing, plan).state
      ensures ok == Effects.RunPlan(old(Snapshot()), failing, plan).ok
    {
      var i := 0;
      while i < |plan|
        invariant 0 <= i <= |plan|
        invariant Effects.RunPlan(old(Snapshot()), failing, plan) == Effects.RunPlan(Snapshot(), failing, plan[i..])
      {
        assert plan[i..][1..] == plan[i + 1..];
        var done := Perform(plan[i]);
        if !done {
          return false;
        }
        i := i + 1;
      }
      ok := true;
    }
  }
}
