# shacnify, modelled in Dafny

shacnify is a command-line tool that turns a React project (Vite, Next.js or
Create React App) into a shadcn/ui project. `init` detects the framework. It
then runs six setup steps in a fixed order and stops at the first one that
fails:

1. install the Tailwind dependencies;
2. write the Tailwind and PostCSS configuration and reset the main stylesheet;
3. restructure `src/`;
4. add the `@/*` import alias to `tsconfig.json` or `jsconfig.json`;
5. write `components.json` and install the shadcn dependencies;
6. install a first batch of components, picked by recipe flag, by configured
   default recipe or by an interactive checkbox prompt.

Around `init` the tool also has:

- `add`, which installs components into an initialised project;
- `create`, which generates a new project and then runs `init` inside it;
- a per-user configuration file;
- a translated message catalogue with a one-language cache;
- a planner that previews what `init` would change.

The model takes each core source file in its own form:

- `installer`, the steps, the planner's `Plan` and the translator are
  imperative: classes with fields, or methods with loops and invariants.
- The detector, the templates and the selection logic are functions.

Shared definitions:

- The project directory is a `map` from path to `File(body)` or `Dir`.
- The user configuration file is a separate value, so entering a new
  project folder changes the files but keeps the configuration.
- A file body is one of three things:
  - JSON that `json.loads` accepts, as a value of the `Json` datatype;
  - text that it rejects;
  - one of the generated templates, as a record.
- Every `run_command` goes into a command log. Its outcome, and the outcome of
  every `write_file`, comes from an `Oracle`. The Oracle also stands for the
  interactive prompts:
  - the template picked for a new project;
  - the checkbox answer, or an interrupt;
  - whether the project generator creates a folder named after the project,
    and what that folder holds.
- An exception that the code does not catch is the `Raised` case of `Outcome`.

| file | module |
|---|---|
| json.dfy | `Json`: JSON values, and Python's truthiness, `in` and `dict.get` on them |
| host.dfy | `Host`: the filesystem, `write_file`, `run_command`, the oracle |
| templates.dfy | `Templates` |
| detector.dfy | `Detector` |
| config_manager.dfy | `ConfigManager` |
| translator.dfy | `Translator` |
| planner.dfy | `Planner` |
| steps.dfy | `Steps` |
| installer.dfy | `Installer` |

Where the code and the tool's documented behaviour differ, the model follows
the code:

- `setup_project` has no safe mode and never builds a `Plan`. The planner is
  modelled on its own.
- The main stylesheet is always overwritten. Nothing checks its content first.
- A `package.json` that does not parse, or is not an object, makes detection
  raise. It is not treated as "not a React project".
- Outside safe mode a plan has 4 to 6 actions, never 3. The tailwind action
  is always there.

## Model

| member | source | states |
|---|---|---|
| Host.WriteFile | src/shacnify/utils.py:44-53 | a successful write leaves the body at the path and creates only directories above it; a failed one changes nothing; every other entry is kept |
| Host.Run | src/shacnify/utils.py:9-42 | `run_command` appends the command to the log and changes neither the files nor the configuration; its outcome is the oracle's answer for that command at that log position |
| Host.MkDirs | src/shacnify/core/steps.py:49-50 | `mkdir(parents=True, exist_ok=True)`: every directory asked for exists afterwards, existing entries are untouched, new entries are directories that were asked for |
| Templates.ContentGlobs | src/shacnify/core/templates.py:4-10 | vite gets `./index.html` and the src glob, nextjs the pages, components and app globs, any other tag the cra glob; `./index.html` appears iff the tag is vite |
| Templates.TailwindConfigContent | src/shacnify/core/templates.py:4-35 | the generated tailwind.config.js is a template, not JSON; it lists `./index.html` iff the tag is vite, and the app glob for nextjs |
| Templates.ComponentsJson | src/shacnify/core/templates.py:37-57 | `css` is app/globals.css iff nextjs and src/index.css otherwise; `rsc` iff nextjs; `tsx` always; tailwind config `tailwind.config.js` with CSS variables; aliases `@/components` and `@/lib/utils` |
| Detector.ListsReactScripts | src/shacnify/core/detector.py:15 | `'react-scripts' in content.get(key, {})`: raises iff the manifest is not an object or the value is neither object, list nor string; a missing key gives false; an object tests its keys, a list its items |
| Detector.ManifestVerdict | src/shacnify/core/detector.py:12-16 | the manifest says cra iff it is a JSON object and `react-scripts` is in `dependencies`, or is not in it and is in `devDependencies`; it never says vite or nextjs; detection fails iff package.json is a directory or does not parse, or a `dependencies` value, or (when that is false) a `devDependencies` value, cannot be searched |
| Detector.Detect | src/shacnify/core/detector.py:5-18 | first match wins: next.config.js gives nextjs whatever else exists; vite iff no next.config.js and a vite config; cra iff no marker file and the manifest says cra; no markers and no package.json gives None; with no markers a package.json decides exactly as its verdict says; a failure needs a package.json |
| Detector.ReactScriptsMeansCra | src/shacnify/core/detector.py:12-16 | a marker-free project is detected as cra when its package.json has an object under `dependencies` with react-scripts as a key, or an object under `devDependencies` with react-scripts as a key while `dependencies` is missing or an object (any other `dependencies` value makes the first test raise) |
| ConfigManager.EnsureConfigExists | src/shacnify/core/config_manager.py:8-12 | a missing file becomes `{}`; an existing file is never touched |
| ConfigManager.GetConfig | src/shacnify/core/config_manager.py:14-20 | the file is first ensured; the result is the decoded JSON, or `{}` when the body does not parse |
| ConfigManager.Split | src/shacnify/core/config_manager.py:27 | `split(',')` yields one piece more than there are commas, and no piece contains a comma |
| ConfigManager.JoinSplit | src/shacnify/core/config_manager.py:27 | joining the pieces of a split with the separator gives back the original string, so splitting loses nothing |
| ConfigManager.Strip | src/shacnify/core/config_manager.py:27 | `strip()` returns a slice of its input, cut only at whitespace, that neither starts nor ends with whitespace |
| ConfigManager.SplitValue | src/shacnify/core/config_manager.py:26-29 | a string with a comma becomes the list of its stripped pieces, one more than the commas and at least two; any other value is kept unchanged |
| ConfigManager.SetConfigValue | src/shacnify/core/config_manager.py:22-30 | fails iff the loaded configuration is not an object; otherwise `key` maps to the split value, the keys are the old keys plus `key`, and every other key keeps its value |
| Translator.ConfiguredLanguage | src/shacnify/i18n/translator.py:14 | the `language` setting, "en" when unset; raises iff the configuration is not an object |
| Translator.LookupConfig | src/shacnify/i18n/translator.py:10-14 | the configuration side of the first `t()` call: raises iff the loaded configuration is not an object, and then the file already existed; otherwise the file is ensured and holds an object |
| Translator.LaterLookupsChangeNothing | src/shacnify/i18n/translator.py:10-14 | once one lookup has returned, the next one returns the same file, so later `t()` calls change no configuration |
| Translator.Resolve | src/shacnify/i18n/translator.py:30-35 | the loaded locale is the configured one when its file exists, otherwise "en" |
| Translator.MissingLocaleNeverHits | src/shacnify/i18n/translator.py:17-35 | for a configured language other than "en" without a locale file, the cached language after loading differs from it, so once anything has been loaded every lookup of it reloads; a null language still matches the initial None cache, so before the first load it hits and loads nothing |
| Translator.Translator.constructor | src/shacnify/i18n/translator.py:7-8 | the cache starts with no language and no messages |
| Translator.Translator.LoadLanguageMessages | src/shacnify/i18n/translator.py:10-37 | reloads only when the configured language differs from the cached one, then caches the resolved locale and its messages; the cache invariant is kept |
| Translator.Translator.T | src/shacnify/i18n/translator.py:39-42 | raises iff the configuration lookup raises, and then leaves the cache as it was; otherwise returns the cached message for the key, or the key itself; on a cache hit the cache is unchanged, on a miss it holds the resolved locale |
| Translator.Translator.SetLanguage | src/shacnify/i18n/translator.py:44-49 | fails iff the configuration is not an object; otherwise stores the code under `language`, adds no other key, keeps every other key with its value and resets the cached language to None; the messages stay |
| Translator.SetLanguageForcesReload | src/shacnify/i18n/translator.py:44-49 | after `set_language` the configured language is never None, so the next lookup reloads |
| Planner.StyleOf | src/shacnify/core/planner.py:54-59 | OVERWRITE is yellow, DELETE bold red, and anything else green, each iff |
| Planner.LabelOfEachVerb | src/shacnify/core/planner.py:55-60 | the label of an action is `[green]CREATE[/]`, `[yellow]OVERWRITE[/]` or `[bold red]DELETE[/]` by its verb |
| Planner.ConfigFileActions | src/shacnify/core/planner.py:24-28 | a missing tailwind.config.js gives CREATE; a present one gives OVERWRITE outside safe mode and nothing in safe mode |
| Planner.SrcRestructureActions | src/shacnify/core/planner.py:32-41 | the restructure list has 3 to 5 actions |
| Planner.PlannedActions | src/shacnify/core/planner.py:15-22 | the plan is empty iff safe mode is on and tailwind.config.js exists |
| Planner.RestructureShape | src/shacnify/core/planner.py:32-41 | 3 to 5 actions, all under `src/`, ending with CREATE src/layouts/, CREATE src/pages/, OVERWRITE src/main.tsx |
| Planner.MissingConfigIsCreated | src/shacnify/core/planner.py:24-28 | in both modes a missing tailwind.config.js is planned first, as CREATE |
| Planner.PresentConfig | src/shacnify/core/planner.py:24-28 | a present tailwind.config.js is planned as OVERWRITE outside safe mode; the safe plan is then empty; no action on it is ever CREATE |
| Planner.SafePlanIsSmall | src/shacnify/core/planner.py:15-28 | a safe-mode plan has at most one action, never a DELETE and nothing under `src/` |
| Planner.FullPlanShape | src/shacnify/core/planner.py:15-41 | outside safe mode: 4 to 6 actions, the tailwind action first, every later action under `src/`, and the fixed three at the end in order |
| Planner.PlanParts | src/shacnify/core/planner.py:15-41 | the whole plan is the config-file actions, then outside safe mode the optional two DELETEs and the fixed three |
| Planner.DeletesAppTsxIffPresent | src/shacnify/core/planner.py:34-35 | DELETE src/App.tsx is planned iff the file exists and safe mode is off |
| Planner.DeletesAppCssIffPresent | src/shacnify/core/planner.py:36-37 | DELETE src/App.css is planned iff the file exists and safe mode is off |
| Planner.SafeTargets | src/shacnify/core/planner.py:21-28 | every safe-mode action is on tailwind.config.js |
| Planner.FullTargets | src/shacnify/core/planner.py:18-22 | outside safe mode the first action is on tailwind.config.js and the rest are the restructure actions, in order |
| Planner.AppTsxInSrc | src/shacnify/core/planner.py:34-35 | an App.tsx action in the restructure list comes first and needs the file to exist |
| Planner.AppCssInSrc | src/shacnify/core/planner.py:34-37 | an App.css action in the restructure list needs the file to exist and comes right after the App.tsx action, if there is one |
| Planner.AppTsxAt | src/shacnify/core/planner.py:18-35 | the App.tsx action can only be second, outside safe mode |
| Planner.AppCssAt | src/shacnify/core/planner.py:18-37 | the App.css action can only be second or third, outside safe mode |
| Planner.AppTsxBeforeAppCss | src/shacnify/core/planner.py:34-37 | whenever both DELETEs are planned, App.tsx comes before App.css |
| Planner.Plan.constructor | src/shacnify/core/planner.py:9-13 | a new plan holds the framework, the mode and exactly the actions `_generate` computes for the directory |
| Planner.Plan.Generate | src/shacnify/core/planner.py:15-22 | appends the config-file actions, then the restructure actions unless in safe mode |
| Planner.Plan.PlanConfigFiles | src/shacnify/core/planner.py:24-28 | appends exactly the config-file actions |
| Planner.Plan.PlanSrcRestructure | src/shacnify/core/planner.py:32-41 | appends exactly the restructure actions |
| Planner.Plan.Display | src/shacnify/core/planner.py:43-62 | the "already configured" message iff there are no actions; otherwise one row per action, in order, with the styled verb, the target and the description |
| Steps.InstallTailwindDeps | src/shacnify/core/steps.py:128-129 | runs the one npm command and reports its outcome; files and configuration unchanged |
| Steps.StylesheetPath | src/shacnify/core/steps.py:139 | app/globals.css iff the framework is nextjs, src/index.css otherwise |
| Steps.StylesheetAgrees | src/shacnify/core/steps.py:139 | the stylesheet named in components.json is the one `configure_tailwind` writes, for every framework |
| Steps.ResetStylesheet | src/shacnify/core/steps.py:143-149 | the stylesheet exists afterwards; it holds the three directives when the write succeeds, otherwise its old content, or empty text if it was just created; only directories are added elsewhere |
| Steps.TailwindSetup | src/shacnify/core/steps.py:131-151 | keeps every existing path, and on success the stylesheet exists |
| Steps.ConfigureTailwind | src/shacnify/core/steps.py:131-151 | the files and the outcome are those of TailwindSetup, and no command runs; the lemmas below say what TailwindSetup does |
| Steps.TailwindStopsAtFailedWrite | src/shacnify/core/steps.py:134-137 | fails iff one of the two config writes fails; the first failure stops the step, leaving exactly what was written before it |
| Steps.TailwindConfigsWritten | src/shacnify/core/steps.py:133-137 | each config write that is reached and succeeds leaves its file in place |
| Steps.StylesheetOverwritten | src/shacnify/core/steps.py:139-151 | after a successful step the stylesheet exists and holds the three directives unless that last, ignored write failed |
| Steps.TailwindKeepsOthers | src/shacnify/core/steps.py:131-151 | every other existing entry is kept, and every other new entry is a directory |
| Steps.CreatedPathsOutsideRemoved | src/shacnify/core/steps.py:43-56 | for every directory and template path the step creates, no parent directory `mkdir(parents=True)` makes is one of the removed files or src/assets |
| Steps.CreationSparesRemoved | src/shacnify/core/steps.py:43-56 | a path under `src/` that does not continue with `a`, and is no longer than src/App.css when it continues with `A`, has no removed path among its parents |
| Steps.RemoveDefaultFiles | src/shacnify/core/steps.py:29-36 | the three default files are gone if they were files; every other entry is kept unchanged |
| Steps.RemoveEmptyAssets | src/shacnify/core/steps.py:38-40 | src/assets is removed iff it is a directory with nothing inside; nothing else changes |
| Steps.AssetsRemovedIffEmptied | src/shacnify/core/steps.py:29-40 | after the clean-up, src/assets is gone iff it held nothing but a react.svg file |
| Steps.CreateDirs | src/shacnify/core/steps.py:43-50 | the four directories exist; existing entries are unchanged; new entries are directories among the four and the directories above them, other than the removed paths |
| Steps.WriteTemplate | src/shacnify/core/steps.py:53-56 | one template write: on success the file holds the template; other entries are kept; the only other new entries are spared directories above the path |
| Steps.WriteTemplates | src/shacnify/core/steps.py:53-56 | the four template writes keep every existing path |
| Steps.TemplatesWritten | src/shacnify/core/steps.py:53-56 | each of the four paths whose write succeeds holds its own template |
| Steps.TemplatesKeepOthers | src/shacnify/core/steps.py:53-56 | the four writes keep every entry they do not rewrite and add only spared directories besides |
| Steps.LayOut | src/shacnify/core/steps.py:43-56 | directories then templates: the four directories exist, the written templates hold their content, other entries are kept, and every new entry is one of the created directories or templates or a directory above them |
| Steps.CleanUp | src/shacnify/core/steps.py:29-40 | the removed defaults survive only as directories; src/assets goes iff it was emptied; every other entry stays and nothing is added |
| Steps.RestructureSrc | src/shacnify/core/steps.py:24-59 | src/App.css and src/assets/react.svg survive only as directories; src/assets stays iff it was not emptied; the four directories exist; the templates written hold their content; other entries are kept; new entries are only the created directories, the templates and the directories above them; the outcome is the router install's |
| Steps.AliasTarget | src/shacnify/core/steps.py:155 | tsconfig.json iff it exists, jsconfig.json otherwise |
| Steps.AliasSource | src/shacnify/core/steps.py:157-160 | a missing target is read as `{}`; reading fails iff the target is a directory or does not parse |
| Steps.EditAliases | src/shacnify/core/steps.py:162-165 | compilerOptions gets baseUrl "." and the `@/*` path mapping and keeps its other keys; `include` is added only when missing; all other top-level keys are kept |
| Steps.ConfigureAlias | src/shacnify/core/steps.py:153-172 | succeeds iff the target can be read and edited, whether or not the final write works; on success with a working write the file holds the merged object, the rest is untouched and no other entry is added |
| Steps.InitializeShadcn | src/shacnify/core/steps.py:174-188 | a failed components.json write fails the step before any command; otherwise the file holds the components.json record and the outcome is that of the dependency install |
| Steps.CatalogueSorted | src/shacnify/core/steps.py:66-71 | the sorted catalogue is strictly ascending under Python's string order |
| Steps.CatalogueSameEntries | src/shacnify/core/steps.py:66-71 | sorting keeps the entries: same length and same names |
| Steps.Choices | src/shacnify/core/steps.py:75-80 | one choice per sorted catalogue entry, in order, ticked iff the name is in the selection; raises iff the selection is not a container |
| Steps.DefaultTicks | src/shacnify/core/steps.py:64 | without a setting, exactly button, card, form and input are ticked |
| Steps.PromptAnswer | src/shacnify/core/steps.py:61-88 | the names picked in the checkbox, or the empty list on an interrupt; raises iff the configuration or its `default_components` cannot be used |
| Steps.InstallCommands | src/shacnify/core/steps.py:98-101 | one `npx shadcn@latest add` command per component, in list order |
| Steps.InstallComponents | src/shacnify/core/steps.py:90-109 | every component is attempted exactly once, in order, even after a failure; the outcome is true iff every attempt succeeded |
| Steps.EmptyBatch | src/shacnify/core/steps.py:92-94 | an empty batch runs nothing and succeeds |
| Steps.OneFailureFailsBatch | src/shacnify/core/steps.py:97-109 | a single failed attempt anywhere makes the batch fail |
| Steps.Selection | src/shacnify/core/steps.py:116-124 | a known, non-empty recipe flag wins; otherwise a truthy known `default_recipe`; otherwise the prompt; raises exactly when the configuration is not an object or the setting is an unhashable truthy value |
| Steps.UnknownFlagFallsThrough | src/shacnify/core/steps.py:116 | an unknown recipe flag chooses exactly as no flag does |
| Steps.PromptIsLastResort | src/shacnify/core/steps.py:116-124 | the prompt is chosen only when neither the flag nor the configuration names a known recipe |
| Steps.ChosenComponents | src/shacnify/core/steps.py:111-124 | the chosen batch is the flagged recipe's, the configured recipe's, or the prompt's answer, as Selection decides; raises when Selection raises |
| Steps.AddComponentsDuringInit | src/shacnify/core/steps.py:111-126 | installs exactly the chosen components and reports whether all succeeded; raises exactly when choosing raises, and then runs nothing; the configuration file is ensured |
| Installer.RunStep | src/shacnify/core/installer.py:81-88 | each step does what its own method in Steps states (StepPost); only the component step can raise; the command log only grows |
| Installer.Transcript | src/shacnify/core/installer.py:91-105 | the messages of the steps run never include the completion message |
| Installer.HeaderOfEachStep | src/shacnify/core/installer.py:91-105 | every step that returned has its header in the transcript |
| Installer.HeadersOnlyOfRunSteps | src/shacnify/core/installer.py:91-105 | only steps in the prefix that ran have a header; with RunInstallSteps, whose results are tied to the runs by StepsChained, later steps never start |
| Installer.Closing | src/shacnify/core/installer.py:103-107 | the completion message is printed iff the pipeline finished; nothing is printed after an abort or for a non-React project |
| Installer.ChainedSteps | src/shacnify/core/installer.py:91-105 | unfolds a chain of states at one index: step k went from state k to state k + 1 as StepPost says and returned result k |
| Installer.RunInstallSteps | src/shacnify/core/installer.py:91-107 | steps run in the fixed order, each from the state the previous one left and returning its result (StepsChained); all but the last result are true; it finishes iff all six returned true; it aborts at step k iff result k is false; a crash happens only in the sixth step, after five successes; the trace is the transcript plus the closing message |
| Installer.RunNextStep | src/shacnify/core/installer.py:91-102 | one turn: the next step runs from the last state; a return extends the results, the states and the transcript by one; a raise happens only at the sixth step and prints only its header |
| Installer.SetupProject | src/shacnify/core/installer.py:72-107 | a failing detection, or a configuration the first message cannot load, crashes with nothing changed or printed; a non-React project only ensures the configuration and prints the error; otherwise the six steps run in a chain from that state, fail-fast as RunInstallSteps says; the completion message appears iff all six steps returned true |
| Installer.AddSpecificComponents | src/shacnify/core/installer.py:109-121 | without components.json nothing is installed; given components are installed as given and in order; the prompt is used only for an empty list; completion is reported whatever the installs did |
| Installer.CreateCommand | src/shacnify/core/installer.py:43-47 | vite, nextjs and cra each get their generator's command prefix |
| Installer.CreateCommandNamesProject | src/shacnify/core/installer.py:43-47 | every generator command names the project being created |
| Installer.CreateNewProject | src/shacnify/core/installer.py:17-69 | a configuration the first message cannot load crashes with nothing changed; an existing folder stops before any command, with the configuration ensured; a failed generator or `npm install` stops before `setup_project`, and a generator that succeeds without creating the folder makes `os.chdir` crash before `npm install`, each iff; otherwise `setup_project` runs in the generated folder after exactly those two commands, and its steps chain from that state as detection of the generated folder decides, with the status agreeing with the results as in SetupProject; the trace is `setup_project`'s, and holds the completion message iff it finished |

## Left out

- Console output, the log file, `time.sleep` and the Vite notice panel are
  not modelled. Only the messages the pipeline's properties need are kept, as
  a trace.
- JSON text is not modelled: no `json.dumps` formatting, no key order and no
  floating-point numbers.
- The template texts that get_app_tsx_content and the other template
  functions return are names, not strings.
- OS errors the code does not expect are not modelled:
  - `unlink` of a directory among the files to remove (the model skips it);
  - `iterdir` on a src/assets that is a file (the model keeps the file);
  - a failing `touch`, `mkdir` or `rmdir`;
  - unreadable or wrongly encoded files.
- The subprocess behaviour of `run_command` is an oracle answer per command
  and log position.
- The translator's locale files are a fixed map from language code to a table
  of string messages. `importlib.resources` and non-string message values are
  not modelled.
- Only the first `t()` call of `setup_project` and of `create_new_project` is
  modelled, by its effect on the configuration file (Translator.LookupConfig).
  Later calls change no file once the first returned
  (Translator.LaterLookupsChangeNothing). The translation cache those calls
  update is not carried through the pipeline.
- `RECIPES` comes from a module that is not part of this model. It is a
  parameter.
- src/shacnify/cli.py (click wiring, the recipe choice list, the rich tables)
  and src/shacnify/logger.py are not part of this model.
- Steps.PromptAnswer: the checkbox's rule that at least one component be
  picked is left to the oracle's answers.
- Installer.CreateNewProject: an interrupt of the template prompt, and a
  project name that is a nested path, are not modelled. The folder test is
  membership of the name among the current entries.
- Steps.RestructureSrc: when a template write fails, nothing is said about
  that path.
- Steps.ConfigureAlias: when the final write fails, the model keeps the
  files unchanged.
