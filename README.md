# InstantAppBuilder, modelled in Dafny

InstantAppBuilder is an interactive Node.js generator that scaffolds a full-stack project in the current working directory. It works in these steps:

- It asks for a backend and a frontend folder name and creates both folders.
- It asks for names for the backend's sub-folders (`db`, `models`, `routes`, …) and creates them.
- It asks one yes/no question per npm package, then runs `npm init -y`, `npm install <selection>` and `npm install -D nodemon` in the backend.
- It writes an Express entry file assembled from the selection, writes `db/connectDB.js`, and patches `package.json` so that `main` is the entry file and `type` is `"module"`.
- Finally it scaffolds a Vite frontend, installs its dependencies, and installs (and for Tailwind, configures) a CSS library.

`script.js` is the current generator. `index.js` is an earlier variant, and it is modelled too:

- it has a larger package catalog with no mandatory package;
- it installs nothing when nothing is chosen;
- its entry file is a fixed one-line `app.js`;
- its Vite step is optional and always uses the React template.

The model has three layers.

- **Content, as pure functions.**
  - The entry file is modelled as named sections (`EntryFile`): imports, the connectDB import, the express bootstrap, middleware, port, route and listen.
  - The other pure parts are the package selection and the install commands (`Packages`), the CSS plan and Tailwind files (`Frontend`), and the manifest patch on a JSON value (`Manifest`).
  - Properties are stated about these functions: order, membership, iff conditions, and the fixed layout of the file.
- **Effects, as a transition semantics** (`Effects`).
  - The state is a set of directories, a map from paths to file contents, and the log of external commands issued.
  - `mkdirSync`, recursive `mkdirSync`, `writeFileSync` and `exec` are transitions that either succeed or fail.
  - Whether a command fails is given by a set `failing` of commands. A command also fails when its working directory is missing.
  - A plan of awaited steps stops at its first failure.
- **The generator, as imperative code.**
  - A `Workspace` class holds the directories, files and log as fields. Each of its methods is proved to leave exactly the state of the corresponding transition.
  - Each function of `script.js` and `index.js` is a method over a `Workspace`, proved to perform the pure run (`Scaffold.ScriptRun`, `IndexScaffold.IndexRun`).
  - Lemmas about those runs state how failures propagate. A failing top-level `mkdir` or a rejected install chain ends the run. In `script.js` the sub-folder loop, the entry file, the connectDB file, the manifest patch and the frontend each catch their own failure. In `index.js` the sub-folder loop and the entry file catch theirs, but a rejected Vite scaffold is returned out of its `try` and reaches the outer handler, which ends the run (`index.js:65-88`, `index.js:31-33`).

The user's answers are inputs (`Scaffold.Answers`, `IndexScaffold.IndexAnswers`). Paths are strings: `path.join(base, "")` is `base`, and otherwise it is `base + "/" + name`.

Some behaviours of the code are worth stating on their own:

- `db/connectDB.js` is written after every resolved install, whether or not `mongoose` was selected (`script.js:29`). `Scaffold.ConnectDBWrittenWhateverSelected` states this.
- In `script.js`, the sub-folder loop, the entry-file write, the connectDB file, the manifest patch and the frontend each catch their own errors, and the run goes on (`Scaffold.ScriptRunStages`, `Scaffold.ScriptRunOk`).
- The folder loop stops at the first throw. A second run of it fails on the first name and creates nothing (`Effects.MkdirEachFresh`).
- `mkdirSync` fails whenever the target exists, a directory included, and not only when it is a non-directory.
- `mkdirSync` and `writeFileSync` need the target's own parent directory. For a name containing `/`, such as the entry file `src/index.js`, that parent is a sub-directory of the backend directory, and it must already exist.

## Model

| member | source | states |
|---|---|---|
| Manifest.Patch | script.js:82-83 | the patched object has the old keys plus `main` and `type`; `main` is the entry file, `type` is `"module"`, and every other key keeps its value |
| Manifest.PatchDocument | script.js:81-84 | an object is patched; an array is written back unchanged, because `JSON.stringify` drops non-index properties; for null, a boolean, a number or a string the assignment throws and nothing is written |
| Effects.MkdirEachSuccess | script.js:12-16 | a loop that succeeds creates exactly one directory per name, and none of them existed before; files and the log are unchanged |
| Effects.MkdirEachFailure | script.js:12-16 | a loop that fails has created exactly the names before some name `k`, which it could not create; those directories remain |
| Effects.MkdirEachFresh | script.js:12-16 | when every name's own parent directory is present and the names are distinct, non-empty and absent, the loop succeeds; running it again fails at once and changes nothing |
| Effects.MkdirEachGrows | script.js:107-111 | creating directories never removes a directory and never touches files or the log |
| Effects.NameDir | script.js:299 | a name without `/` has no directory part, so it is created or written directly in its base |
| Effects.NameDirLastSlash | script.js:299 | for a name with `/`, the directory part is exactly the text before its last `/`: a proper prefix of the name, followed by `/`, with no `/` after that; so `src/index.js` needs `src` |
| Effects.SingleSegment | script.js:13-14 | the parent of a single-segment name is its base directory |
| Effects.Mkdir | script.js:14 | `mkdirSync` succeeds and adds the path exactly when the path's parent directory exists and nothing is at the path; otherwise it fails and changes nothing (transition; its properties are the lemmas in this table) |
| Effects.MkdirAll | script.js:68 | recursive `mkdirSync` adds what is missing of the two levels and fails only when one of them is a file (transition) |
| Effects.MkdirEach | script.js:12-16 | the `forEach` loop of `mkdirSync` calls, stopping at the first failure and keeping what it made before it (transition; see `MkdirEachSuccess`, `MkdirEachFailure`, `MkdirEachFresh`) |
| Effects.WriteFile | script.js:378 | `writeFileSync` replaces or adds the file exactly when its directory exists and the path is not a directory; otherwise it fails and changes nothing (transition) |
| Effects.Exec | script.js:177-192 | `execPromise` logs the command and resolves exactly when the command is not failing and its directory exists (transition; see `PerformCommand`) |
| Effects.Perform | script.js:177-192 | one awaited step: a command, `npm init -y` leaving a default manifest, the Vite scaffold leaving its project directory, or a file write (transition; see `PerformCommand`) |
| Effects.RunPlan | script.js:227-260 | awaiting steps in order; the first rejection skips the rest (transition; see `RunPlanAppend`, `IssuedAll`, `IssuedStopsAtFailure`, `CommandChain`) |
| Effects.RunPlanAppend | script.js:123-170 | awaiting two parts in sequence: the second part runs from the first part's final state only if the first resolved |
| Effects.PerformCommand | script.js:177-192 | an `exec` step is logged, and it resolves exactly when its command is not failing and its directory exists; it keeps every directory and file, and the only file it can add is the `package.json` of `npm init` |
| Effects.IssuedAll | script.js:227-260 | a chain that meets no failing command issues every command |
| Effects.IssuedStopsAtFailure | script.js:227-260 | a chain issues its commands up to and including the first failing one, and none after it |
| Effects.CommandChain | script.js:227-260 | a chain of commands in existing directories logs exactly the issued commands, and it resolves exactly when none of its commands is failing |
| Effects.CommandChainFiles | script.js:227-260 | a chain of commands never removes a directory and never changes an existing file; the only file it can add is a `package.json` written by `npm init -y` |
| Workspace.Workspace.Mkdir | script.js:14 | the in-place `mkdirSync` leaves exactly the state, and returns exactly the success, of `Effects.Mkdir`: it succeeds exactly when the path's own parent directory exists and the path does not |
| Workspace.Workspace.MkdirAll | script.js:68 | the in-place recursive `mkdirSync` leaves exactly the state, and returns exactly the success, of `Effects.MkdirAll` |
| Workspace.Workspace.MkdirEach | script.js:12-16 | the `forEach` loop, which stops at the first throw, leaves exactly the state, and returns exactly the success, of `Effects.MkdirEach` |
| Workspace.Workspace.WriteFile | script.js:378 | the in-place `writeFileSync` leaves exactly the state, and returns exactly the success, of `Effects.WriteFile`: it succeeds exactly when the file's own directory exists and the path is not a directory |
| Workspace.Workspace.ReadFile | script.js:81 | returns a file's content exactly when the path holds a file |
| Workspace.Workspace.Exec | script.js:177-192 | `execPromise` appends the command to the log; it resolves exactly when the command is not failing and its directory exists |
| Workspace.Workspace.Perform | script.js:123-130 | one awaited step leaves exactly the state, and returns exactly the success, of `Effects.Perform` |
| Workspace.Workspace.RunPlan | script.js:227-260 | awaiting the steps one after another, stopping at the first rejection, leaves exactly the state, and returns exactly the success, of `Effects.RunPlan` |
| EntryFile.ImportLine | script.js:302-318 | the line is `import `, then the package's binding, then ` from '<pkg>';`, with nothing else; the five packages with fixed forms get the binding `Binding` gives them |
| EntryFile.ImportLinePlain | script.js:318 | every package other than the five with fixed forms gets `import p from 'p';` |
| EntryFile.ImportsInListOrder | script.js:301-320 | the `i`-th package's import line occurs at its position in the file, and the first one starts right after the header |
| EntryFile.ImportsSeparated | script.js:301-320 | exactly one line break follows each import line, and the next package's line starts right after it |
| EntryFile.LastImportEndsSection | script.js:348-350 | the last import line ends exactly one blank line before the connectDB import section; with the two rows above, the import section is exactly the lines joined by line breaks |
| EntryFile.ImportSectionAt | script.js:348-350 | the import section follows the header directly, and a blank line separates it from the connectDB import section |
| EntryFile.Synthesize | script.js:301-375 | the sections `createMainFile` fills in for a package list (specification function; its properties are the `EntryFile` lemmas in this table) |
| EntryFile.MainFileText | script.js:301-375 | the text `createMainFile` writes: the sections in template order (specification function) |
| EntryFile.SectionsInOrder | script.js:348-375 | the sections of the file never overlap, and they come in template order |
| EntryFile.FixedSectionsPresent | script.js:348-375 | for any selection, the file starts with the header and then the imports; the express bootstrap, the `/` route and the opening of `app.listen` are at their positions; the file ends with the closing of the listen call |
| EntryFile.ConnectDBImportIffMongoose | script.js:351-355 | `import connectDB from './db/connectDB.js';` opens its section exactly when `mongoose` is listed |
| EntryFile.ListenCallsConnectDBIffMongoose | script.js:371-374 | the listen callback calls `connectDB();` exactly when `mongoose` is listed; otherwise the callback only logs |
| EntryFile.PortIffDotenv | script.js:322-324 | the port section is the `.env` block exactly when `dotenv` is listed; otherwise it is exactly `const PORT = 3000;` |
| EntryFile.DotenvPortLayout | script.js:323 | the `.env` block loads `./.env`, and then takes `PORT` from the environment with a fallback of 3000 |
| EntryFile.MiddlewareIffListed | script.js:326-346 | a middleware line appears exactly when it is a known line whose package is listed |
| EntryFile.MiddlewareAtMostOnce | script.js:326-346 | no middleware line appears twice, even when the list repeats packages |
| EntryFile.MiddlewareFixedOrder | script.js:326-346 | middleware lines follow the fixed order: body-parser json, body-parser urlencoded, cookie-parser, morgan, cors, method-override; list order has no effect |
| EntryFile.MiddlewareUnfold | script.js:326-346 | the middleware section is the sequence of conditional pushes the source performs |
| EntryFile.CollectMiddleware | script.js:326-346 | the sequential `push` calls build exactly the middleware section |
| EntryFile.SectionsDependOnSetOnly | script.js:322-363 | every section except the imports depends only on which packages are listed; reordering or repeating packages leaves them unchanged |
| Packages.CatalogDistinct | script.js:196-211 | the catalog has no duplicates and does not contain `express` |
| Packages.Selection | script.js:223-224 | the selection is never empty, and it ends with `express` |
| Packages.SelectionMembers | script.js:196-224 | a package is selected exactly when it is a catalog entry answered yes, or it is `express`; an unanswered question counts as no |
| Packages.SelectionOrder | script.js:196-224 | the chosen packages come in catalog order |
| Packages.SelectionDistinct | script.js:196-224 | the selection has no duplicates, and `express` appears only in the last position |
| Packages.NothingChosen | script.js:223-224 | declining every question selects only `express` |
| Packages.EverythingChosen | script.js:223-224 | accepting every question selects the whole catalog, then `express` |
| Packages.InstallCommand | script.js:235 | the install command runs in the backend directory and is exactly `npm install `, then the packages in list order, each followed by exactly one space except the last, which ends the line; with no packages it is `npm install ` alone |
| Packages.NothingChosenInstallsExpress | script.js:223-235 | declining every question installs exactly `npm install express` |
| Packages.DevInstallLine | script.js:245 | the dev install is exactly `npm install -D nodemon` |
| Packages.BackendPlanCommands | script.js:227-260 | the chain's commands are, in order, `npm init -y`, the install and the dev install |
| Packages.BackendChain | script.js:227-260 | in the backend directory, the chain issues its commands up to the first failing one, and it resolves exactly when none of the three fails |
| Packages.InstallFailureStopsChain | script.js:234-242 | a failing `npm install` rejects after `npm init -y` and itself; the dev install is never issued |
| Packages.BackendPlan | script.js:227-260 | `npm init -y`, the install and the dev install, in the backend directory (plan; see `BackendPlanCommands`, `BackendChain`) |
| Frontend.CssChoice | script.js:456 | the answer `"none"` means no library; every other answer is the library itself |
| Frontend.CssSteps | script.js:133-171 | the CSS steps, one guarded block per known library and a generic install for any other (plan; see `ExactlyOneBranch`, `SingleCommandLibraries`) |
| Frontend.FrontendPlan | script.js:119-171 | the Vite scaffold in the working directory, `npm install` in the project, then the CSS steps (plan; see `TailwindRun`) |
| Frontend.ExactlyOneBranch | script.js:133-171 | no library means no steps; otherwise the guarded blocks yield exactly one branch: emotion, chakra-ui, material-ui, tailwindcss, or `npm install <lib>` |
| Frontend.ChoicesInstall | script.js:436-457 | of the offered choices, only `"none"` installs nothing, and every CSS command runs in the frontend directory |
| Frontend.SingleCommandLibraries | script.js:135-169 | each library other than Tailwind issues exactly one command and writes nothing; a library outside the four known ones issues exactly `npm install <lib>` |
| Frontend.TailwindPathsDiffer | script.js:410-434 | `tailwind.config.js` and `src/index.css` are two different files |
| Frontend.ViteThenInstall | script.js:123-130 | the Vite scaffold runs in the working directory, and `npm install` runs in the new project, which gains the project directory and `src` |
| Frontend.TailwindStepsRun | script.js:153-160 | the Tailwind install and init are followed by full overwrites of `tailwind.config.js` and `src/index.css` with the fixed texts; nothing else changes |
| Frontend.TailwindRun | script.js:119-175 | with Tailwind chosen and no failing command, the plan issues the Vite, install, Tailwind install and init commands, in that order; it resolves and leaves both Tailwind files with their fixed contents |
| Scaffold.PromptMainDirectory | script.js:267-280 | returns one name per folder, in the order of `folders` |
| Scaffold.ConnectDB | script.js:47-74 | `createConnectDBFile`: create `db` recursively, then write the module into it; either failure ends the step (transition; see `ConnectDBWrittenWhateverSelected`) |
| Scaffold.UpdatePackageJson | script.js:76-90 | `updatePackageJson`: read, parse, patch and write the manifest; a missing, unparseable or scalar manifest is left as it is (transition; see `UpdatePackageJsonEffect`) |
| Scaffold.AfterInstall | script.js:28-30 | the entry file, the connectDB module and the manifest patch, each failure caught (transition; see `EntryFileWritten`, `ManifestPatched`) |
| Scaffold.Backend | script.js:23-30 | the sub-folder loop, the install chain whose rejection ends the run, then `AfterInstall` (transition; see `ScriptRunStages`) |
| Scaffold.ScriptRun | script.js:7-45 | the whole `createMainDirectory` run of `script.js` (transition; see `ScriptRunOk`, `RootFailureStopsRun`, `InstallRejectionSkipsRest`) |
| Scaffold.UpdatePackageJsonEffect | script.js:76-90 | a successful patch of an object manifest sets `main` and `type` and keeps every other key; a missing, unparseable or scalar manifest is left unchanged, and no other file, directory or log entry changes |
| Scaffold.UpdatePackageJsonIdempotent | script.js:81-84 | patching again with the same entry file changes nothing |
| Scaffold.PatchTwice | script.js:82-83 | the key patch is idempotent |
| Scaffold.CreateBackendStructure | script.js:92-117 | the sub-folder loop, whose failure is caught, leaves exactly the state of `MkdirEach` over the answers in question order |
| Scaffold.PromptAndInstallPackages | script.js:194-265 | the method returns the selection, and it leaves exactly the state and success of the install chain |
| Scaffold.CreateMainFile | script.js:293-383 | writes the synthesized entry file; a failed write is caught and leaves nothing changed |
| Scaffold.CreateConnectDBFile | script.js:47-74 | creates `db` recursively, then writes the connectDB module into it; a failure is caught |
| Scaffold.UpdateManifest | script.js:76-90 | the read, patch and write leave exactly the state of `UpdatePackageJson` |
| Scaffold.CreateFrontendStructure | script.js:119-175 | the frontend plan runs to its first failure, which is caught |
| Scaffold.CreateMainDirectory | script.js:7-45 | the whole run leaves exactly the state, and reports exactly the outcome, of `ScriptRun` |
| Scaffold.RootFailureStopsRun | script.js:11-44 | if a top-level folder cannot be made, the run fails before any command is issued or any file is written |
| Scaffold.FrontendGuardPasses | script.js:32 | once both top-level folders exist, neither name is empty, so the frontend guard never skips the frontend |
| Scaffold.ScriptRunOk | script.js:7-45 | the run resolves exactly when both top-level folders are made and none of the three install commands fails |
| Scaffold.ScriptRunStages | script.js:20-30 | after the roots, the install runs from the state the sub-folder loop left, even if that loop failed; the run's outcome is the install's outcome |
| Scaffold.InstallStage | script.js:23-26 | the sub-folder loop touches no file and no log entry, and the install chain then issues its commands up to the first failure |
| Scaffold.InstallRejectionSkipsRest | script.js:24-30 | a rejected install ends the run: the log ends with the failing command, no frontend command is issued, and no file is added except `package.json` |
| Scaffold.ChainRejected | script.js:227-260 | a rejected chain's last issued command is a failing one, and the chain adds no file but `package.json` |
| Scaffold.IssuedEndsInFailure | script.js:227-260 | a chain that contains a failing command stops on a failing command |
| Scaffold.ConnectDBWrittenWhateverSelected | script.js:29 | after a resolved install, `db/connectDB.js` holds the module whatever was selected |
| Scaffold.ConnectDBAfterEntryFile | script.js:28-30 | whatever the entry file holds, the connectDB module written after it survives the manifest patch |
| Scaffold.EntryFileNamedDbBlocksModule | script.js:28-29 | an entry file named `db`, written while the backend directory exists and `db` does not, becomes a file where `db` should be; the recursive `mkdir` then fails and the module is not written |
| Scaffold.EntryFileWritten | script.js:28 | after a resolved install, when the entry file's own directory exists, the entry file holds the text synthesized from the selection |
| Scaffold.EntryFileSurvivesSetup | script.js:28-30 | an entry file of any source text, once written, is left unchanged by the connectDB step and the manifest patch |
| Scaffold.ManifestPatched | script.js:30 | after a resolved install, an object manifest ends with `main` set to the entry file, `type` set to `"module"`, and its other keys kept |
| Scaffold.ManifestSurvivesSetup | script.js:28-30 | writing the entry file and the connectDB module leaves the manifest and the backend directory as they were |
| IndexScaffold.IndexCatalogDistinct | index.js:92-108 | the catalog has no duplicates |
| IndexScaffold.IndexSelection | index.js:124 | the catalog filtered by the answers, with nothing appended (see `IndexSelectionMembers`, `IndexSelectionOrder`) |
| IndexScaffold.IndexPlan | index.js:125-164 | no step for an empty selection, otherwise the three-command chain (see `EmptySelectionIssuesNothing`, `IndexChain`) |
| IndexScaffold.IndexBackend | index.js:23-29 | the sub-folder loop and `app.js`, each failure caught, then the install step and the optional Vite scaffold (transition; see `MainFileSurvives`) |
| IndexScaffold.InstallThenVite | index.js:25-29 | the install step, then the Vite scaffold only if the install resolved and the user confirmed (transition; see `ViteOnlyWhenConfirmed`, `IndexInstallFailureSkipsVite`) |
| IndexScaffold.IndexRun | index.js:6-34 | the whole `createMainDirectory` run of `index.js` (transition; see `FilesKept`) |
| IndexScaffold.IndexSelectionMembers | index.js:92-124 | a package is selected exactly when it is in the catalog and answered yes; this includes `express`, which is installed only when confirmed |
| IndexScaffold.IndexSelectionOrder | index.js:124 | the selection keeps catalog order |
| IndexScaffold.IndexSelectionDistinct | index.js:124 | the selection has no duplicates |
| IndexScaffold.EmptySelectionIssuesNothing | index.js:161-164 | with nothing chosen, no command is issued, nothing changes, and the step resolves |
| IndexScaffold.IndexChain | index.js:128-160 | a non-empty selection issues the three commands up to the first failing one, and resolves exactly when none fails |
| IndexScaffold.IndexCreateMainFile | index.js:186-197 | writes `app.js` with the fixed one-line content; a failed write is caught |
| IndexScaffold.IndexPromptAndInstallPackages | index.js:90-169 | the selection, then the chain unless the selection is empty, leaves exactly the state and success of `IndexPlan` |
| IndexScaffold.IndexCreateFrontendStructure | index.js:65-88 | runs the Vite scaffold with the React template; its rejection reaches the caller |
| IndexScaffold.IndexCreateMainDirectory | index.js:6-34 | the whole run leaves exactly the state, and reports exactly the outcome, of `IndexRun` |
| IndexScaffold.MainFileSurvives | index.js:23-29 | `app.js` is written before the install, and nothing later removes or changes it |
| IndexScaffold.FilesKept | index.js:25-29 | the install step and the Vite scaffold keep every existing file as it is |
| IndexScaffold.IndexInstallFailureSkipsVite | index.js:25-29 | a rejected install ends the run before the Vite question; the log holds the install commands up to the failing one |
| IndexScaffold.ViteOnlyWhenConfirmed | index.js:26-29 | after a resolved install, the Vite command is issued exactly when the user confirmed; it uses the React template, runs in the working directory, and its failure is the run's failure |

## Left out

- Prompting (`inquirer`) is not modelled. The answers are inputs, and every question is taken as answered. `promptMainFileName`, `promptViteTemplate`, `promptInstallVite` and `promptCSSLibrary`'s list are plain values, except for the `"none"` mapping.
- `promptFolderNames` returns `Object.values(answers)`. The model takes that to be the answers in question order, which holds for these non-numeric keys. `index.js` runs the same sub-folder loop, modelled by `Scaffold.CreateBackendStructure`.
- Standard output, standard error and console logging of commands and steps are not modelled. A command is its line and working directory, and its outcome comes from the set `failing`.
- Of the external tools, only the effects later steps depend on are modelled. `npm init -y` leaves a default `package.json` when none exists; an existing manifest is not re-read or merged. `npm create vite` leaves the project directory and its `src`. Installs change no file in the model.
- `JSON.parse` and `JSON.stringify` formatting and key order are not modelled. A file is either source text that does not parse as JSON, or a JSON value. Source text that happens to parse as JSON is not modelled.
- Recursive `mkdirSync` is modelled as "create what is missing of the two levels". Deeper parents are not created.
- `path.join` normalisation (`..`, `.`, repeated or trailing slashes) and the absolute working-directory prefix are not modelled. A name containing `/` is joined as it is, and creating or writing it needs the directory before its last `/`. Neither is validation of names against path traversal or shell metacharacters, which the source does not do.
- Promise and callback machinery is modelled as sequential steps. Concurrency, timeouts and a hanging command are not modelled.
- `frontendScript.js` is not part of this model.
- The generated program's own runtime behaviour is not modelled, for example the database connection in `connectDB.js`.
- EntryFile.ConnectDBImportIffMongoose: states the iff at the section's position in the file, not "anywhere in the file". Package names are arbitrary text, so an import line could itself contain that text.
- EntryFile.PortIffDotenv: states the iff at the port section's position, for the same reason.
- EntryFile.ListenCallsConnectDBIffMongoose: states the iff as a suffix of the file, for the same reason.
- Scaffold.ConnectDBWrittenWhateverSelected: assumes that neither the backend directory nor `db` is a file and that the module's path is not a directory; in those cases the source's write fails, and the failure is caught. It also excludes an entry file named `db` written while the backend directory exists and `db` does not yet: that file takes `db`'s place and blocks the module (`Scaffold.EntryFileNamedDbBlocksModule`). When `db` already exists as a directory, the entry-file write fails instead and the module is still written.
- Scaffold.EntryFileWritten: excludes an entry-file path that is a directory, or that equals the connectDB module's path.
- Scaffold.ManifestPatched: excludes an entry file named `package.json`, which would overwrite the manifest before the patch.
