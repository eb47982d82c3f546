/**
 * src/shacnify/core/installer.py: the `init` pipeline, the `add` command
 * and the creation of a new project.  What the console shows is kept as a
 * trace of Message values, so that what is reported can be compared with
 * what ran.
 */
module Installer {
  import opened Json
  import opened Host
  import opened Detector
  import opened ConfigManager
  import opened Steps
  import Translator

  /**
   * The six steps of `init`; the source names them by the translation keys
   * dep_install, tailwind_config, restructure_src, alias_config,
   * shadcn_init and add_components.
   */
  datatype StepName = DepInstall | TailwindConfig | RestructureSrcStep | AliasConfig | ShadcnInit | AddComponents

  /** `install_steps`, in the order `setup_project` runs them. */
  const InstallSteps: seq<StepName> :=
    [DepInstall, TailwindConfig, RestructureSrcStep, AliasConfig, ShadcnInit, AddComponents]

  /** The console lines the core prints, without their text. */
  datatype Message =
    | FrameworkDetected(tag: string)
    | ErrorNotReact
    | StepHeader(step: StepName)
    | StepCompleted(step: StepName)
    | StepFailed(step: StepName)
    | StepFailedNotice
    | InitDone
    | NotInitialized
    | ComponentsAdded

  /** How `setup_project` ends. */
  datatype Status = NotReactProject | Crashed | Aborted(step: StepName) | Finished

  /**
   * What running `step` from `w` leaves, as the step's method in Steps
   * states it; only the component step can raise.
   */
  predicate StepPost(w: World, env: Oracle, step: StepName, tag: string, recipe: Option<string>,
                     recipes: map<string, seq<string>>, w': World, ok: Outcome<bool>) {
    match step
    case DepInstall => ok.Returned? && TailwindDepsInstalled(w, env, w', ok.value)
    case TailwindConfig => ok.Returned? && TailwindConfigured(w, env, tag, w', ok.value)
    case RestructureSrcStep => ok.Returned? && SrcRestructured(w, env, w', ok.value)
    case AliasConfig => ok.Returned? && AliasConfigured(w, env, w', ok.value)
    case ShadcnInit => ok.Returned? && ShadcnInitialized(w, env, tag, w', ok.value)
    case AddComponents => ComponentsInstalledDuringInit(w, env, recipe, recipes, w', ok)
  }

  /** One step of `install_steps`. */
  method RunStep(w: World, env: Oracle, step: StepName, tag: string,
                 recipe: Option<string>, recipes: map<string, seq<string>>)
    returns (w': World, ok: Outcome<bool>)
    ensures StepPost(w, env, step, tag, recipe, recipes, w', ok)
    ensures ok.Raised? ==> step == AddComponents
    ensures |w.ran| <= |w'.ran| && w'.ran[..|w.ran|] == w.ran
  {
    match step {
    case DepInstall =>
      var b;
      w', b := InstallTailwindDeps(w, env);
      ok := Returned(b);
    case TailwindConfig =>
      var b;
      w', b := ConfigureTailwind(w, env, tag);
      ok := Returned(b);
    case RestructureSrcStep =>
      var b;
      w', b := RestructureSrc(w, env);
      ok := Returned(b);
    case AliasConfig =>
      var b;
      w', b := ConfigureAlias(w, env);
      ok := Returned(b);
    case ShadcnInit =>
      var b;
      w', b := InitializeShadcn(w, env, tag);
      ok := Returned(b);
    case AddComponents =>
      w', ok := AddComponentsDuringInit(w, env, recipe, recipes);
    }
  }

  /** The messages for the first |results| steps: each header, then its verdict. */
  function Transcript(results: seq<bool>): (r: seq<Message>)
    requires |results| <= |InstallSteps|
    ensures InitDone !in r && ErrorNotReact !in r
    decreases |results|
  {
    if results == [] then []
    else
      var n := |results| - 1;
      var step := InstallSteps[n];
      Transcript(results[..n])
      + [StepHeader(step)]
      + (if results[n] then [StepCompleted(step)] else [StepFailed(step), StepFailedNotice])
  }

  /** Every step that returned has its header in the transcript. */
  lemma {:induction false} HeaderOfEachStep(results: seq<bool>, k: nat)
    requires |results| <= |InstallSteps| && k < |results|
    ensures StepHeader(InstallSteps[k]) in Transcript(results)
    decreases |results|
  {
    var n := |results| - 1;
    var tail := (if results[n] then [StepCompleted(InstallSteps[n])] else [StepFailed(InstallSteps[n]), StepFailedNotice]);
    assert Transcript(results) == Transcript(results[..n]) + [StepHeader(InstallSteps[n])] + tail;
    if k < n {
      HeaderOfEachStep(results[..n], k);
    }
  }

  /** Only steps that were reached have a header in the transcript. */
  lemma {:induction false} HeadersOnlyOfRunSteps(results: seq<bool>, s: StepName)
    requires |results| <= |InstallSteps|
    requires StepHeader(s) in Transcript(results)
    ensures s in InstallSteps[..|results|]
    decreases |results|
  {
    var n := |results| - 1;
    var tail := (if results[n] then [StepCompleted(InstallSteps[n])] else [StepFailed(InstallSteps[n]), StepFailedNotice]);
    assert Transcript(results) == Transcript(results[..n]) + [StepHeader(InstallSteps[n])] + tail;
    if StepHeader(s) in Transcript(results[..n]) {
      HeadersOnlyOfRunSteps(results[..n], s);
      assert InstallSteps[..n] <= InstallSteps[..|results|];
    } else {
      assert s == InstallSteps[n];
    }
  }

  /** What `setup_project` prints after the transcript of the steps that returned. */
  function Closing(status: Status): (r: seq<Message>)
    ensures InitDone in r <==> status == Finished
    ensures status.Aborted? || status == NotReactProject ==> r == []
  {
    match status
    case Finished => [InitDone]
    case Crashed => [StepHeader(AddComponents)]
    case _ => []
  }

  /** The state in which step k of `install_steps` started. */
  function StateAt(worlds: seq<World>, k: nat): World
    requires k < |worlds|
  {
    worlds[k]
  }

  /**
   * Step k of `install_steps` went from `worlds[k]` to `worlds[k + 1]` and
   * returned `results[k]`, for each k below |results|.
   */
  ghost predicate Chain(env: Oracle, tag: string, recipe: Option<string>, recipes: map<string, seq<string>>,
                        results: seq<bool>, worlds: seq<World>)
    requires |results| <= |InstallSteps| && |worlds| == |results| + 1
  {
    forall k {:trigger StateAt(worlds, k)} :: 0 <= k < |results| ==>
      StepPost(StateAt(worlds, k), env, InstallSteps[k], tag, recipe, recipes, worlds[k + 1], Returned(results[k]))
  }

  /**
   * `worlds` are the states between the steps that returned: they start at
   * `w`, they form a Chain, and `w'` is the last of them, or what the
   * raising component step left.
   */
  ghost predicate StepsChained(w: World, env: Oracle, tag: string, recipe: Option<string>,
                               recipes: map<string, seq<string>>, w': World, status: Status,
                               results: seq<bool>, worlds: seq<World>) {
    && |results| <= |InstallSteps| && |worlds| == |results| + 1 && worlds[0] == w
    && Chain(env, tag, recipe, recipes, results, worlds)
    && (status != Crashed ==> w' == worlds[|results|])
    && (status == Crashed ==> ComponentsInstalledDuringInit(worlds[|results|], env, recipe, recipes, w', Raised))
  }

  /** Unfolds a Chain at one index: the step that returned there did what StepPost says. */
  lemma {:induction false} ChainedSteps(env: Oracle, tag: string, recipe: Option<string>,
                                        recipes: map<string, seq<string>>, results: seq<bool>,
                                        worlds: seq<World>, k: nat)
    requires |results| <= |InstallSteps| && |worlds| == |results| + 1
    requires Chain(env, tag, recipe, recipes, results, worlds)
    requires k < |results|
    ensures StepPost(worlds[k], env, InstallSteps[k], tag, recipe, recipes, worlds[k + 1], Returned(results[k]))
  {
    assert StateAt(worlds, k) == worlds[k];
  }

  /**
   * How the results of the steps that returned determine how the loop
   * ended: every result but the last is a success; Finished exactly when
   * all six succeeded; Aborted exactly when the last result is a failure,
   * at that step; Crashed only after five successes.
   */
  predicate StatusAgrees(status: Status, results: seq<bool>) {
    && |results| <= |InstallSteps|
    && status != NotReactProject
    && (forall k :: 0 <= k < |results| - 1 ==> results[k])
    && (status == Finished <==> |results| == |InstallSteps| && forall k :: 0 <= k < |results| ==> results[k])
    && (status.Aborted? <==> results != [] && !results[|results| - 1])
    && (status.Aborted? ==> status.step == InstallSteps[|results| - 1])
    && (status == Crashed ==> |results| == |InstallSteps| - 1 && forall k :: 0 <= k < |results| ==> results[k])
  }

  lemma {:induction false} FinishedAgrees(results: seq<bool>)
    requires |results| == |InstallSteps| && false !in results
    ensures StatusAgrees(Finished, results)
  {
  }

  lemma {:induction false} AbortedAgrees(before: seq<bool>)
    requires |before| < |InstallSteps| && false !in before
    ensures StatusAgrees(Aborted(InstallSteps[|before|]), before + [false])
  {
    var r := before + [false];
    assert forall k :: 0 <= k < |r| - 1 ==> r[k] == before[k];
  }

  lemma {:induction false} CrashedAgrees(results: seq<bool>)
    requires |results| == |InstallSteps| - 1 && false !in results
    ensures StatusAgrees(Crashed, results)
  {
  }

  /** The loop of `setup_project` over `install_steps`, stopping at the first failure. */
  method RunInstallSteps(w: World, env: Oracle, tag: string, recipe: Option<string>, recipes: map<string, seq<string>>)
    returns (w': World, status: Status, results: seq<bool>, trace: seq<Message>, ghost worlds: seq<World>)
    ensures StatusAgrees(status, results)
    ensures StepsChained(w, env, tag, recipe, recipes, w', status, results, worlds)
    ensures |w.ran| <= |w'.ran| && w'.ran[..|w.ran|] == w.ran
    ensures trace == Transcript(results) + Closing(status)
  {
    w' := w;
    results := [];
    trace := [];
    worlds := [w];
    var i := 0;
    while i < |InstallSteps|
      invariant 0 <= i <= |InstallSteps|
      invariant |results| == i && |worlds| == i + 1 && worlds[0] == w && w' == worlds[i]
      invariant false !in results
      invariant |w.ran| <= |w'.ran| && w'.ran[..|w.ran|] == w.ran
      invariant trace == Transcript(results)
      invariant Chain(env, tag, recipe, recipes, results, worlds)
    {
      var ran := w'.ran;
      var before := results;
      var ok;
      w', ok, results, trace, worlds := RunNextStep(w', env, tag, recipe, recipes, results, trace, worlds);
      assert w'.ran[..|w.ran|] == ran[..|w.ran|];
      if ok.Raised? {
        CrashedAgrees(results);
        status := Crashed;
        return;
      }
      if !ok.value {
        AbortedAgrees(before);
        status := Aborted(InstallSteps[i]);
        return;
      }
      i := i + 1;
    }
    FinishedAgrees(results);
    status := Finished;
    trace := trace + [InitDone];
  }

  /**
   * One turn of the loop: print the header of the next step, run it from
   * the last state of the chain, and print its verdict; a step that returns
   * extends the results and the chain by its result and state.
   */
  method RunNextStep(current: World, env: Oracle, tag: string, recipe: Option<string>,
                     recipes: map<string, seq<string>>, results: seq<bool>, trace: seq<Message>,
                     ghost worlds: seq<World>)
    returns (next: World, ok: Outcome<bool>, results': seq<bool>, trace': seq<Message>, ghost worlds': seq<World>)
    requires |results| < |InstallSteps| && |worlds| == |results| + 1 && current == worlds[|results|]
    requires false !in results && trace == Transcript(results)
    requires Chain(env, tag, recipe, recipes, results, worlds)
    ensures |current.ran| <= |next.ran| && next.ran[..|current.ran|] == current.ran
    ensures ok.Raised? ==>
              && |results| == |InstallSteps| - 1 && results' == results && worlds' == worlds
              && trace' == trace + [StepHeader(AddComponents)]
              && ComponentsInstalledDuringInit(current, env, recipe, recipes, next, Raised)
    ensures ok.Returned? ==>
              && results' == results + [ok.value] && worlds' == worlds + [next]
              && (ok.value ==> false !in results')
              && trace' == Transcript(results')
              && Chain(env, tag, recipe, recipes, results', worlds')
  {
    var step := InstallSteps[|results|];
    trace' := trace + [StepHeader(step)];
    next, ok := RunStep(current, env, step, tag, recipe, recipes);
    if ok.Raised? {
      return next, ok, results, trace', worlds;
    }
    results' := results + [ok.value];
    worlds' := worlds + [next];
    trace' := trace' + (if ok.value then [StepCompleted(step)] else [StepFailed(step), StepFailedNotice]);
    TranscriptExtends(results, ok.value);
    ChainExtends(env, tag, recipe, recipes, results, worlds, next, ok.value);
  }

  /** The transcript of one more result is the old one, the header, and the verdict. */
  lemma {:induction false} TranscriptExtends(results: seq<bool>, b: bool)
    requires |results| < |InstallSteps|
    ensures var step := InstallSteps[|results|];
            Transcript(results + [b])
            == Transcript(results) + [StepHeader(step)]
               + (if b then [StepCompleted(step)] else [StepFailed(step), StepFailedNotice])
  {
    assert (results + [b])[..|results|] == results;
  }

  /** A step that returns from the last state extends the chain by one state. */
  lemma {:induction false} ChainExtends(env: Oracle, tag: string, recipe: Option<string>,
                                        recipes: map<string, seq<string>>, results: seq<bool>,
                                        worlds: seq<World>, next: World, b: bool)
    requires |results| < |InstallSteps| && |worlds| == |results| + 1
    requires Chain(env, tag, recipe, recipes, results, worlds)
    requires StepPost(worlds[|results|], env, InstallSteps[|results|], tag, recipe, recipes, next, Returned(b))
    ensures Chain(env, tag, recipe, recipes, results + [b], worlds + [next])
  {
    var r := results + [b];
    var ws := worlds + [next];
    forall k | 0 <= k < |r|
      ensures StepPost(StateAt(ws, k), env, InstallSteps[k], tag, recipe, recipes, ws[k + 1], Returned(r[k]))
    {
      if k < |results| {
        assert StateAt(ws, k) == StateAt(worlds, k) && ws[k + 1] == worlds[k + 1] && r[k] == results[k];
      }
    }
  }

  /**
   * `setup_project`: detect the framework, then run the six steps in order,
   * stopping at the first that fails; `results` holds the outcome of each
   * step that returned.  Completed steps are not undone.  An exception from
   * `detect_framework` escapes before anything is printed; the first message
   * after it loads the configuration as LookupConfig says, which may raise
   * too.
   */
  method SetupProject(w: World, env: Oracle, recipe: Option<string>, recipes: map<string, seq<string>>)
    returns (w': World, status: Status, results: seq<bool>, trace: seq<Message>, ghost worlds: seq<World>)
    ensures Detect(w.files).Failed? || Translator.LookupConfig(w.config).Raised? ==>
              w' == w && status == Crashed && results == [] && trace == []
    ensures !Detect(w.files).Failed? && Translator.LookupConfig(w.config).Returned? ==>
              var w0 := w.(config := Translator.LookupConfig(w.config).value);
              && (Detect(w.files).NotReact? ==>
                    w' == w0 && status == NotReactProject && results == [] && trace == [ErrorNotReact])
              && (Detect(w.files).Found? ==>
                    var tag := Detect(w.files).framework.Tag();
                    && StatusAgrees(status, results)
                    && StepsChained(w0, env, tag, recipe, recipes, w', status, results, worlds)
                    && trace == [FrameworkDetected(tag)] + Transcript(results) + Closing(status))
    ensures |w.ran| <= |w'.ran| && w'.ran[..|w.ran|] == w.ran
    ensures InitDone in trace <==> status == Finished
  {
    worlds := [w];
    var detected := Detect(w.files);
    if detected.Failed? {
      return w, Crashed, [], [], worlds;
    }
    var lookup := Translator.LookupConfig(w.config);
    if lookup.Raised? {
      return w, Crashed, [], [], worlds;
    }
    var w0 := w.(config := lookup.value);
    if detected.NotReact? {
      return w0, NotReactProject, [], [ErrorNotReact], worlds;
    }
    var steps;
    w', status, results, steps, worlds := RunInstallSteps(w0, env, detected.framework.Tag(), recipe, recipes);
    trace := [FrameworkDetected(detected.framework.Tag())] + steps;
    assert InitDone in trace <==> InitDone in Closing(status);
  }

  /**
   * `add_specific_components`: refuse before components.json exists;
   * otherwise install the given components, or those picked in the prompt
   * when none are given, and report completion whatever the installs did.
   */
  method AddSpecificComponents(w: World, env: Oracle, components: seq<string>)
    returns (w': World, crashed: bool, trace: seq<Message>)
    ensures ComponentsJsonPath !in w.files ==> w' == w && !crashed && trace == [NotInitialized]
    ensures ComponentsJsonPath in w.files && components != [] ==>
              && w' == w.(ran := w.ran + InstallCommands(components))
              && !crashed && trace == [ComponentsAdded]
    ensures ComponentsJsonPath in w.files && components == [] ==>
              var answer := PromptAnswer(GetConfig(w.config).1, env);
              && w'.files == w.files && w'.config == EnsureConfigExists(w.config)
              && (crashed <==> answer.Raised?)
              && (crashed ==> w'.ran == w.ran && trace == [])
              && (!crashed ==> w'.ran == w.ran + InstallCommands(answer.value) && trace == [ComponentsAdded])
  {
    if ComponentsJsonPath !in w.files {
      return w, false, [NotInitialized];
    }
    var selected := components;
    var w1 := w;
    if selected == [] {
      var loaded := GetConfig(w.config);
      w1 := w.(config := loaded.0);
      var answer := PromptAnswer(loaded.1, env);
      if answer.Raised? {
        return w1, true, [];
      }
      selected := answer.value;
    }
    var done;
    w', done := InstallComponents(w1, env, selected);
    crashed := false;
    trace := [ComponentsAdded];
  }

  /** `command_map` of `create_new_project`. */
  function CreateCommand(framework: Framework, name: string): (c: Command)
    ensures framework == Vite ==> "npm create vite@latest " <= c
    ensures framework == NextJs ==> "npx create-next-app@latest " <= c
    ensures framework == Cra ==> "npx create-react-app " <= c
  {
    match framework
    case Vite => "npm create vite@latest " + name + " -- --template react-ts"
    case NextJs => "npx create-next-app@latest " + name
    case Cra => "npx create-react-app " + name
  }

  /** A string occurs inside any string built around it. */
  lemma {:induction false} SubstringOfConcat(a: string, k: string, b: string)
    ensures IsSubstring(k, a + k + b)
    decreases |a|
  {
    if a == [] {
      assert a + k + b == k + b;
      assert k <= k + b;
    } else {
      SubstringOfConcat(a[1..], k, b);
      assert (a + k + b)[1..] == a[1..] + k + b;
    }
  }

  /** Every generator command is about the project being created. */
  lemma {:induction false} CreateCommandNamesProject(framework: Framework, name: string)
    ensures IsSubstring(name, CreateCommand(framework, name))
  {
    match framework
    case Vite => SubstringOfConcat("npm create vite@latest ", name, " -- --template react-ts");
    case NextJs =>
      SubstringOfConcat("npx create-next-app@latest ", name, "");
      assert "npx create-next-app@latest " + name + "" == CreateCommand(framework, name);
    case Cra =>
      SubstringOfConcat("npx create-react-app ", name, "");
      assert "npx create-react-app " + name + "" == CreateCommand(framework, name);
  }

  const NpmInstall: Command := "npm install"

  /** How `create_new_project` ends. */
  datatype Creation = MessagesCrashed | FolderExists | CreateFailed | ChdirCrashed | InstallFailed | SetUp(status: Status)

  /**
   * `create_new_project`: its first message loads the configuration as
   * LookupConfig says; stop if the folder exists; run the generator for the
   * template the user selects; enter the new folder, whose content the
   * generator decides, which raises when the generator made none; run
   * `npm install`; then `setup_project` there.  Each failure stops the chain.
   */
  method CreateNewProject(w: World, env: Oracle, name: string, recipe: Option<string>, recipes: map<string, seq<string>>)
    returns (w': World, outcome: Creation, trace: seq<Message>, ghost results: seq<bool>, ghost worlds: seq<World>)
    ensures outcome == MessagesCrashed <==> Translator.LookupConfig(w.config).Raised?
    ensures outcome == MessagesCrashed ==> w' == w
    ensures outcome == FolderExists <==> Translator.LookupConfig(w.config).Returned? && name in w.files
    ensures outcome == FolderExists ==> w' == w.(config := EnsureConfigExists(w.config))
    ensures outcome == CreateFailed <==>
              && Translator.LookupConfig(w.config).Returned? && name !in w.files
              && !env.succeeds(|w.ran|, CreateCommand(env.template, name))
    ensures outcome == CreateFailed ==>
              w' == World(w.files, EnsureConfigExists(w.config), w.ran + [CreateCommand(env.template, name)])
    ensures outcome == ChdirCrashed <==>
              && Translator.LookupConfig(w.config).Returned? && name !in w.files
              && env.succeeds(|w.ran|, CreateCommand(env.template, name)) && !env.madeFolder
    ensures outcome == ChdirCrashed ==>
              w' == World(w.files, EnsureConfigExists(w.config), w.ran + [CreateCommand(env.template, name)])
    ensures outcome == InstallFailed <==>
              && Translator.LookupConfig(w.config).Returned? && name !in w.files
              && env.succeeds(|w.ran|, CreateCommand(env.template, name)) && env.madeFolder
              && !env.succeeds(|w.ran| + 1, NpmInstall)
    ensures outcome == InstallFailed ==>
              w' == World(env.created, EnsureConfigExists(w.config), w.ran + [CreateCommand(env.template, name), NpmInstall])
    ensures outcome.SetUp? <==>
              && Translator.LookupConfig(w.config).Returned? && name !in w.files
              && env.succeeds(|w.ran|, CreateCommand(env.template, name)) && env.madeFolder
              && env.succeeds(|w.ran| + 1, NpmInstall)
    ensures outcome.SetUp? ==>
              var start := World(env.created, EnsureConfigExists(w.config), w.ran + [CreateCommand(env.template, name), NpmInstall]);
              && (Detect(env.created).Failed? ==> w' == start && outcome.status == Crashed && trace == [])
              && (Detect(env.created).NotReact? ==>
                    w' == start && outcome.status == NotReactProject && trace == [ErrorNotReact])
              && (Detect(env.created).Found? ==>
                    var tag := Detect(env.created).framework.Tag();
                    && StatusAgrees(outcome.status, results)
                    && StepsChained(start, env, tag, recipe, recipes, w', outcome.status, results, worlds)
                    && trace == [FrameworkDetected(tag)] + Transcript(results) + Closing(outcome.status))
    ensures !outcome.SetUp? ==> trace == []
    ensures InitDone in trace <==> outcome == SetUp(Finished)
  {
    results, worlds, trace := [], [w], [];
    var lookup := Translator.LookupConfig(w.config);
    if lookup.Raised? {
      return w, MessagesCrashed, trace, results, worlds;
    }
    var w0 := w.(config := lookup.value);
    if name in w.files {
      return w0, FolderExists, trace, results, worlds;
    }
    var command := CreateCommand(env.template, name);
    var created := Run(w0, env, command);
    if !created.1 {
      return created.0, CreateFailed, trace, results, worlds;
    }
    // os.chdir into the new project, which raises when there is none.
    if !env.madeFolder {
      return created.0, ChdirCrashed, trace, results, worlds;
    }
    var inside := created.0.(files := env.created);
    var installed := Run(inside, env, NpmInstall);
    if !installed.1 {
      return installed.0, InstallFailed, trace, results, worlds;
    }
    Translator.LaterLookupsChangeNothing(w.config);
    var status;
    w', status, results, trace, worlds := SetupProject(installed.0, env, recipe, recipes);
    outcome := SetUp(status);
  }
}
