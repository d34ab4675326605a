/**
 * The frontend: the CSS library answer, and the plan `createFrontendStructure`
 * awaits — scaffold a Vite project, install its dependencies, then install
 * and configure the chosen CSS library.
 */
module Frontend {
  import opened Manifest
  import opened Effects

  /** The choices the CSS question offers, in display order. */
  const CssChoices: seq<string> :=
    ["styled-components", "emotion", "sass", "tailwindcss", "bootstrap", "material-ui",
     "ant-design", "chakra-ui", "none"]

  /** The answer to the CSS question as a library: `"none"` means no library. */
  function CssChoice(answer: string): (css: Option<string>)
    ensures css.None? <==> answer == "none"
    ensures css.Some? ==> css.value == answer
  {
    if answer != "none" then Some(answer) else None
  }

  // ---------------------------------------------------------------------
  // Fixed commands and file contents

  const EmotionInstall := "npm install @emotion/react @emotion/styled"
  const ChakraInstall := "npm i @chakra-ui/react " + "@emotion/react @emotion/styled framer-motion"
  const MaterialInstall := "npm install @mui/material " + "@emotion/react @emotion/styled"
  const TailwindInstall := "npm install -D tailwindcss " + "postcss autoprefixer"
  const TailwindInit := "npx tailwindcss init -p"

  const TailwindConfig :=
    "/** @type {import('tailwindcss')" + ".Config} */\n"
    + "export default {\n"
    + "  content: [\n"
    + "    './index.html',\n"
    + "    './src/**/*.{js,ts,jsx,tsx}',\n"
    + "  ],\n"
    + "  theme: {\n"
    + "    extend: {},\n"
    + "  },\n"
    + "  plugins: [],\n"
    + "}"

  const TailwindCss := "@tailwind base;\n" + "@tailwind components;\n" + "@tailwind utilities;"

  /** The libraries with an install command of their own. */
  predicate KnownLibrary(lib: string) {
    lib == "emotion" || lib == "chakra-ui" || lib == "material-ui" || lib == "tailwindcss"
  }

  /** Tailwind: install, generate its configuration, then overwrite the configuration and the stylesheet. */
  function TailwindSteps(dir: Path): seq<Step> {
    [Shell(Command(TailwindInstall, dir)),
     Shell(Command(TailwindInit, dir)),
     Write(dir, "tailwind.config.js", Source(TailwindConfig)),
     Write(PathJoin(dir, "src"), "index.css", Source(TailwindCss))]
  }

  /**
   * The CSS part of the plan, in the shape the source gives it: nothing
   * without a library, otherwise one guarded block per known library and a
   * generic install guarded by "none of those".
   */
  function CssSteps(dir: Path, css: Option<string>): seq<Step> {
    if css.None? || css.value == "" then []
    else
      var lib := css.value;
      (if lib == "emotion" then [Shell(Command(EmotionInstall, dir))] else [])
      + (if lib == "chakra-ui" then [Shell(Command(ChakraInstall, dir))] else [])
      + (if lib == "material-ui" then [Shell(Command(MaterialInstall, dir))] else [])
      + (if lib == "tailwindcss" then TailwindSteps(dir) else [])
      + (if !KnownLibrary(lib) then [Shell(Command("npm install " + lib, dir))] else [])
  }

  /** What a library installs, as a single dispatch on the library. */
  function CssBranch(dir: Path, lib: string): seq<Step> {
    if lib == "emotion" then [Shell(Command(EmotionInstall, dir))]
    else if lib == "chakra-ui" then [Shell(Command(ChakraInstall, dir))]
    else if lib == "material-ui" then [Shell(Command(MaterialInstall, dir))]
    else if lib == "tailwindcss" then TailwindSteps(dir)
    else [Shell(Command("npm install " + lib, dir))]
  }

  /**
   * Exactly one of the guarded blocks applies: for a non-empty library the
   * CSS steps are those of its single branch, and without one there are none.
   */
  lemma ExactlyOneBranch(dir: Path, css: Option<string>)
    ensures css.None? || css.value == "" ==> CssSteps(dir, css) == []
    ensures css.Some? && css.value != "" ==> CssSteps(dir, css) == CssBranch(dir, css.value)
  {
    if css.Some? && css.value != "" {
      var lib := css.value;
      if lib == "emotion" {
        assert CssSteps(dir, css) == [Shell(Command(EmotionInstall, dir))] + [] + [] + [] + [];
      } else if lib == "chakra-ui" {
        assert CssSteps(dir, css) == [] + [Shell(Command(ChakraInstall, dir))] + [] + [] + [];
      } else if lib == "material-ui" {
        assert CssSteps(dir, css) == [] + [] + [Shell(Command(MaterialInstall, dir))] + [] + [];
      } else if lib == "tailwindcss" {
        assert CssSteps(dir, css) == [] + [] + [] + TailwindSteps(dir) + [];
      } else {
        assert CssSteps(dir, css) == [] + [] + [] + [] + [Shell(Command("npm install " + lib, dir))];
      }
    }
  }

  /** `"none"` installs nothing; every other offered choice installs something, in the frontend directory. */
  lemma ChoicesInstall(dir: Path, answer: string)
    requires answer in CssChoices
    ensures answer == "none" <==> CssSteps(dir, CssChoice(answer)) == []
    ensures forall step :: step in CssSteps(dir, CssChoice(answer)) && step.Shell? ==> step.cmd.cwd == dir
  {
    ExactlyOneBranch(dir, CssChoice(answer));
  }

  /**
   * A library outside the four known ones issues exactly `npm install <lib>`;
   * each of emotion, chakra-ui and material-ui issues exactly one command and
   * writes nothing.
   */
  lemma SingleCommandLibraries(dir: Path, lib: string)
    requires lib != "" && lib != "tailwindcss"
    ensures |CssSteps(dir, Some(lib))| == 1 && CssSteps(dir, Some(lib))[0].Shell?
    ensures !KnownLibrary(lib) ==> CssSteps(dir, Some(lib))[0].cmd == Command("npm install " + lib, dir)
  {
    ExactlyOneBranch(dir, Some(lib));
  }

  // ---------------------------------------------------------------------
  // The whole frontend plan

  /** `npm create vite@latest <folder> -- --template <template>` in `root`, `npm install` in the new project, then the CSS steps. */
  function FrontendPlan(root: Path, folder: string, template: string, css: Option<string>): seq<Step> {
    var dir := PathJoin(root, folder);
    [CreateVite(root, folder, template), Shell(Command("npm install", dir))] + CssSteps(dir, css)
  }

  /** The two Tailwind files, each under the project directory. */
  function TailwindConfigPath(dir: Path): Path { PathJoin(dir, "tailwind.config.js") }
  function IndexCssPath(dir: Path): Path { PathJoin(PathJoin(dir, "src"), "index.css") }

  lemma TailwindPathsDiffer(dir: Path)
    ensures TailwindConfigPath(dir) != IndexCssPath(dir)
  {
    var n := |dir| + 1;
    assert TailwindConfigPath(dir)[n] == 't';
    assert IndexCssPath(dir)[n] == 's';
  }

  /**
   * With Tailwind chosen and no command failing, the plan issues the Vite,
   * install, Tailwind install and Tailwind init commands in that order,
   * resolves, and leaves both Tailwind files with their fixed contents.
   */
  lemma TailwindRun(s: State, failing: set<Command>, root: Path, folder: string, template: string)
    requires root in s.dirs
    requires forall c :: c in FrontendCommands(root, folder, template) ==> c !in failing
    requires TailwindConfigPath(PathJoin(root, folder)) !in s.dirs
    requires IndexCssPath(PathJoin(root, folder)) !in s.dirs
    ensures var o := RunPlan(s, failing, FrontendPlan(root, folder, template, Some("tailwindcss")));
      var dir := PathJoin(root, folder);
      && o.ok
      && o.state.log == s.log + FrontendCommands(root, folder, template)
      && TailwindConfigPath(dir) in o.state.files && o.state.files[TailwindConfigPath(dir)] == Source(TailwindConfig)
      && IndexCssPath(dir) in o.state.files && o.state.files[IndexCssPath(dir)] == Source(TailwindCss)
  {
    var dir := PathJoin(root, folder);
    var cmds := FrontendCommands(root, folder, template);
    ExactlyOneBranch(dir, Some("tailwindcss"));
    var head := [CreateVite(root, folder, template), Shell(Command("npm install", dir))];
    assert FrontendPlan(root, folder, template, Some("tailwindcss")) == head + TailwindSteps(dir);
    RunPlanAppend(s, failing, head, TailwindSteps(dir));
    ViteThenInstall(s, failing, root, folder, template);
    var t := RunPlan(s, failing, head).state;
    TailwindStepsRun(t, failing, dir);
    TailwindPathsDiffer(dir);
    assert cmds == [cmds[0], cmds[1]] + [cmds[2], cmds[3]];
  }

  /** The Vite scaffold and the dependency install, when neither fails. */
  lemma ViteThenInstall(s: State, failing: set<Command>, root: Path, folder: string, template: string)
    requires root in s.dirs
    requires ViteCommand(root, folder, template) !in failing
    requires Command("npm install", PathJoin(root, folder)) !in failing
    ensures var dir := PathJoin(root, folder);
      var o := RunPlan(s, failing, [CreateVite(root, folder, template), Shell(Command("npm install", dir))]);
      && o.ok
      && o.state == State(s.dirs + {dir, PathJoin(dir, "src")}, s.files,
                          s.log + [ViteCommand(root, folder, template), Command("npm install", dir)])
  {
    var dir := PathJoin(root, folder);
    var plan := [CreateVite(root, folder, template), Shell(Command("npm install", dir))];
    assert plan[2..] == [];
    var o1 := Perform(s, failing, plan[0]);
    RunPlanStep(o1.state, failing, plan, 1);
    RunPlanStep(s, failing, plan, 0);
    assert plan[0..] == plan;
  }

  /** The Tailwind steps in a project that has its `src` directory, when neither command fails. */
  lemma TailwindStepsRun(t: State, failing: set<Command>, dir: Path)
    requires dir in t.dirs && PathJoin(dir, "src") in t.dirs
    requires Command(TailwindInstall, dir) !in failing && Command(TailwindInit, dir) !in failing
    requires TailwindConfigPath(dir) !in t.dirs && IndexCssPath(dir) !in t.dirs
    ensures var o := RunPlan(t, failing, TailwindSteps(dir));
      && o.ok
      && o.state.dirs == t.dirs
      && o.state.log == t.log + [Command(TailwindInstall, dir), Command(TailwindInit, dir)]
      && o.state.files == t.files[TailwindConfigPath(dir) := Source(TailwindConfig)][IndexCssPath(dir) := Source(TailwindCss)]
  {
    var plan := TailwindSteps(dir);
    SingleSegment(dir, "tailwind.config.js");
    SingleSegment(PathJoin(dir, "src"), "index.css");
    assert plan[4..] == [] && plan[0..] == plan;
    var o1 := Perform(t, failing, plan[0]);
    var o2 := Perform(o1.state, failing, plan[1]);
    var o3 := Perform(o2.state, failing, plan[2]);
    RunPlanStep(o3.state, failing, plan, 3);
    RunPlanStep(o2.state, failing, plan, 2);
    RunPlanStep(o1.state, failing, plan, 1);
    RunPlanStep(t, failing, plan, 0);
  }

  /** The commands a Tailwind frontend plan issues. */
  function FrontendCommands(root: Path, folder: string, template: string): seq<Command> {
    var dir := PathJoin(root, folder);
    [ViteCommand(root, folder, template), Command("npm install", dir),
     Command(TailwindInstall, dir), Command(TailwindInit, dir)]
  }
}
