/**
 * src/shacnify/core/planner.py: the preview of what `init` would change.
 * A Plan object appends actions to its list step by step; the functions
 * ConfigFileActions, SrcRestructureActions and PlannedActions say which list
 * each step leaves, and the lemmas below say what every plan looks like.
 * The plan only reads which paths exist; it changes nothing on disk.
 */
module Planner {
  import opened Host

  datatype Verb = Create | Overwrite | Delete

  /** The fixed descriptions the planner attaches to its actions. */
  datatype Caption =
    | TailwindConfigCaption
    | AppComponentCaption
    | AppCssCaption
    | LayoutsCaption
    | PagesCaption
    | EntryFileCaption
  {
    function Text(): string {
      match this
      case TailwindConfigCaption => "File cấu hình Tailwind"
      case AppComponentCaption => "File App component mặc định"
      case AppCssCaption => "File CSS của App mặc định"
      case LayoutsCaption => "Thư mục Layouts"
      case PagesCaption => "Thư mục Pages"
      case EntryFileCaption => "File khởi động ứng dụng"
    }
  }

  datatype Action = Action(verb: Verb, target: Path, description: Caption)

  /** One row of the preview table. */
  datatype Row = Row(action: string, target: Path, description: string)

  /** What `display` shows: the "already configured" message, or a table. */
  datatype View = AlreadyConfigured | Table(rows: seq<Row>)

  function VerbName(v: Verb): string {
    match v
    case Create => "CREATE"
    case Overwrite => "OVERWRITE"
    case Delete => "DELETE"
  }

  /** The table styles `display` uses. */
  datatype Style = Green | Yellow | BoldRed {
    function Markup(): string {
      match this
      case Green => "green"
      case Yellow => "yellow"
      case BoldRed => "bold red"
    }
  }

  /** The style `display` gives a verb: green unless the verb is OVERWRITE or DELETE. */
  function StyleOf(v: Verb): (s: Style)
    ensures s == Yellow <==> v == Overwrite
    ensures s == BoldRed <==> v == Delete
    ensures s == Green <==> v == Create
  {
    match v
    case Overwrite => Yellow
    case Delete => BoldRed
    case Create => Green
  }

  /** The first table cell of an action: its verb wrapped in its style's markup. */
  function Label(a: Action): string {
    "[" + StyleOf(a.verb).Markup() + "]" + VerbName(a.verb) + "[/]"
  }

  /** The three cells a preview row can start with. */
  lemma {:induction false} LabelOfEachVerb(a: Action)
    ensures a.verb == Create ==> Label(a) == "[green]CREATE[/]"
    ensures a.verb == Overwrite ==> Label(a) == "[yellow]OVERWRITE[/]"
    ensures a.verb == Delete ==> Label(a) == "[bold red]DELETE[/]"
  {
    match a.verb
    case Create => assert StyleOf(Create).Markup() == "green" && VerbName(Create) == "CREATE";
    case Overwrite => assert StyleOf(Overwrite).Markup() == "yellow" && VerbName(Overwrite) == "OVERWRITE";
    case Delete => assert StyleOf(Delete).Markup() == "bold red" && VerbName(Delete) == "DELETE";
  }

  /** The actions `_plan_config_files` appends. */
  function ConfigFileActions(fs: Fs, safeMode: bool): (r: seq<Action>)
    ensures "tailwind.config.js" !in fs ==> r == [Action(Create, "tailwind.config.js", TailwindConfigCaption)]
    ensures "tailwind.config.js" in fs && !safeMode ==>
              r == [Action(Overwrite, "tailwind.config.js", TailwindConfigCaption)]
    ensures "tailwind.config.js" in fs && safeMode ==> r == []
  {
    var present := "tailwind.config.js" in fs;
    if !present || !safeMode then
      [Action(if present then Overwrite else Create, "tailwind.config.js", TailwindConfigCaption)]
    else []
  }

  const RestructureTail: seq<Action> := [
    Action(Create, "src/layouts/", LayoutsCaption),
    Action(Create, "src/pages/", PagesCaption),
    Action(Overwrite, "src/main.tsx", EntryFileCaption)]

  /** The actions `_plan_src_restructure` appends. */
  function SrcRestructureActions(fs: Fs): (r: seq<Action>)
    ensures 3 <= |r| <= 5
  {
    (if "src/App.tsx" in fs then [DeleteAppTsx] else [])
    + (if "src/App.css" in fs then [DeleteAppCss] else [])
    + RestructureTail
  }

  /** The restructure list: 3 to 5 actions, all under src/, ending with the fixed three. */
  lemma {:induction false} RestructureShape(fs: Fs)
    ensures var r := SrcRestructureActions(fs);
            && 3 <= |r| <= 5
            && r[|r| - 3..] == RestructureTail
            && forall a :: a in r ==> "src/" <= a.target
  {
    var head: seq<Action> := (if "src/App.tsx" in fs then [DeleteAppTsx] else []) + (if "src/App.css" in fs then [DeleteAppCss] else []);
    assert SrcRestructureActions(fs) == head + RestructureTail;
    assert head <= [DeleteAppTsx, DeleteAppCss] || head == [DeleteAppCss];
    RestructureTargets();
  }

  /** Every action the restructure list can hold targets a path under src/. */
  lemma {:induction false} RestructureTargets()
    ensures "src/" <= DeleteAppTsx.target && "src/" <= DeleteAppCss.target
    ensures forall a :: a in RestructureTail ==> "src/" <= a.target
  {
    assert "src/" <= RestructureTail[0].target && "src/" <= RestructureTail[1].target && "src/" <= RestructureTail[2].target;
  }

  /** The whole list `_generate` builds. */
  function PlannedActions(fs: Fs, safeMode: bool): (r: seq<Action>)
    ensures r == [] <==> safeMode && "tailwind.config.js" in fs
  {
    assert |SrcRestructureActions(fs)| >= 3;
    ConfigFileActions(fs, safeMode) + (if !safeMode then SrcRestructureActions(fs) else [])
  }

  /** A missing tailwind.config.js is always planned as CREATE, in either mode. */
  lemma {:induction false} MissingConfigIsCreated(fs: Fs, safeMode: bool)
    requires "tailwind.config.js" !in fs
    ensures |PlannedActions(fs, safeMode)| >= 1
    ensures PlannedActions(fs, safeMode)[0] == Action(Create, "tailwind.config.js", TailwindConfigCaption)
  {
  }

  /** A present tailwind.config.js is overwritten outside safe mode and left out of the plan in safe mode. */
  lemma {:induction false} PresentConfig(fs: Fs, safeMode: bool)
    requires "tailwind.config.js" in fs
    ensures !safeMode ==> PlannedActions(fs, safeMode)[0] == Action(Overwrite, "tailwind.config.js", TailwindConfigCaption)
    ensures safeMode ==> PlannedActions(fs, safeMode) == []
    ensures forall a :: a in PlannedActions(fs, safeMode) && a.target == "tailwind.config.js" ==> a.verb == Overwrite
  {
    if !safeMode {
      var s := SrcRestructureActions(fs);
      RestructureShape(fs);
      assert PlannedActions(fs, safeMode) == ConfigFileActions(fs, safeMode) + s;
      forall a | a in s ensures a.target != "tailwind.config.js" {
        assert "src/" <= a.target;
        assert a.target[0] == 's';
      }
    }
  }

  /** Safe mode plans at most one action, never a DELETE and nothing under src/. */
  lemma {:induction false} SafePlanIsSmall(fs: Fs)
    ensures |PlannedActions(fs, true)| <= 1
    ensures forall a :: a in PlannedActions(fs, true) ==> a.verb != Delete && !("src/" <= a.target)
  {
    assert "tailwind.config.js"[0] == 't';
  }

  /** Outside safe mode: 4 to 6 actions, the tailwind action first, and the fixed three at the end. */
  lemma {:induction false} FullPlanShape(fs: Fs)
    ensures var r := PlannedActions(fs, false);
            && 4 <= |r| <= 6
            && r[0].target == "tailwind.config.js"
            && (forall i :: 1 <= i < |r| ==> "src/" <= r[i].target)
            && r[|r| - 3..] == RestructureTail
  {
    var c := ConfigFileActions(fs, false);
    var s := SrcRestructureActions(fs);
    var r := PlannedActions(fs, false);
    RestructureShape(fs);
    assert r == c + s && |c| == 1;
    assert r[|r| - 3..] == s[|s| - 3..];
    forall i | 1 <= i < |r| ensures "src/" <= r[i].target {
      assert r[i] == s[i - 1] && s[i - 1] in s;
    }
  }

  const DeleteAppTsx := Action(Delete, "src/App.tsx", AppComponentCaption)
  const DeleteAppCss := Action(Delete, "src/App.css", AppCssCaption)

  /** The verbs and targets of the whole plan, and where the two DELETE actions can be. */
  lemma {:induction false} PlanParts(fs: Fs, safeMode: bool)
    ensures var r := PlannedActions(fs, safeMode);
            var tsx := if "src/App.tsx" in fs then [DeleteAppTsx] else [];
            var css := if "src/App.css" in fs then [DeleteAppCss] else [];
            && (safeMode ==> r == ConfigFileActions(fs, true))
            && (!safeMode ==> r == ConfigFileActions(fs, false) + tsx + css + RestructureTail)
  {
  }

  /** DELETE src/App.tsx is planned exactly when the file exists and safe mode is off. */
  lemma {:induction false} DeletesAppTsxIffPresent(fs: Fs, safeMode: bool)
    ensures DeleteAppTsx in PlannedActions(fs, safeMode) <==> !safeMode && "src/App.tsx" in fs
  {
    PlanParts(fs, safeMode);
    assert "src/App.tsx"[8] != "src/App.css"[8];
    if !safeMode {
      var r := PlannedActions(fs, safeMode);
      var c := ConfigFileActions(fs, false);
      var tsx := if "src/App.tsx" in fs then [DeleteAppTsx] else [];
      var css := if "src/App.css" in fs then [DeleteAppCss] else [];
      assert r == c + tsx + css + RestructureTail;
      assert DeleteAppTsx !in c && DeleteAppTsx !in css && DeleteAppTsx !in RestructureTail;
    }
  }

  /** DELETE src/App.css is planned exactly when the file exists and safe mode is off. */
  lemma {:induction false} DeletesAppCssIffPresent(fs: Fs, safeMode: bool)
    ensures DeleteAppCss in PlannedActions(fs, safeMode) <==> !safeMode && "src/App.css" in fs
  {
    PlanParts(fs, safeMode);
    assert "src/App.tsx"[8] != "src/App.css"[8];
    if !safeMode {
      var r := PlannedActions(fs, safeMode);
      var c := ConfigFileActions(fs, false);
      var tsx := if "src/App.tsx" in fs then [DeleteAppTsx] else [];
      var css := if "src/App.css" in fs then [DeleteAppCss] else [];
      assert r == c + tsx + css + RestructureTail;
      assert DeleteAppCss !in c && DeleteAppCss !in tsx && DeleteAppCss !in RestructureTail;
    }
  }

  /** In safe mode every planned action is on tailwind.config.js. */
  lemma {:induction false} SafeTargets(fs: Fs, i: nat)
    requires i < |PlannedActions(fs, true)|
    ensures PlannedActions(fs, true)[i].target == "tailwind.config.js"
  {
  }

  /** Outside safe mode the plan is the tailwind action followed by the src actions. */
  lemma {:induction false} FullTargets(fs: Fs, i: nat)
    requires i < |PlannedActions(fs, false)|
    ensures i == 0 ==> PlannedActions(fs, false)[i].target == "tailwind.config.js"
    ensures i > 0 ==> PlannedActions(fs, false)[i] == SrcRestructureActions(fs)[i - 1]
  {
    assert PlannedActions(fs, false) == ConfigFileActions(fs, false) + SrcRestructureActions(fs);
  }

  /** Within the src actions, src/App.tsx only appears first, and only when it exists. */
  lemma {:induction false} AppTsxInSrc(fs: Fs, k: nat)
    requires k < |SrcRestructureActions(fs)| && SrcRestructureActions(fs)[k].target == "src/App.tsx"
    ensures "src/App.tsx" in fs && k == 0
  {
    var tsx := if "src/App.tsx" in fs then [DeleteAppTsx] else [];
    var css := if "src/App.css" in fs then [DeleteAppCss] else [];
    assert SrcRestructureActions(fs) == tsx + css + RestructureTail;
  }

  /** Within the src actions, src/App.css only appears right after any App.tsx DELETE, and only when it exists. */
  lemma {:induction false} AppCssInSrc(fs: Fs, k: nat)
    requires k < |SrcRestructureActions(fs)| && SrcRestructureActions(fs)[k].target == "src/App.css"
    ensures "src/App.css" in fs && k == if "src/App.tsx" in fs then 1 else 0
  {
    var tsx := if "src/App.tsx" in fs then [DeleteAppTsx] else [];
    var css := if "src/App.css" in fs then [DeleteAppCss] else [];
    assert SrcRestructureActions(fs) == tsx + css + RestructureTail;
  }

  /** The only action on src/App.tsx is the DELETE right after the tailwind action. */
  lemma {:induction false} AppTsxAt(fs: Fs, safeMode: bool, i: nat)
    requires i < |PlannedActions(fs, safeMode)| && PlannedActions(fs, safeMode)[i].target == "src/App.tsx"
    ensures !safeMode && "src/App.tsx" in fs && i == 1
  {
    assert "src/App.tsx"[0] != "tailwind.config.js"[0];
    if safeMode {
      SafeTargets(fs, i);
    } else {
      FullTargets(fs, i);
      AppTsxInSrc(fs, i - 1);
    }
  }

  /** The only action on src/App.css is the DELETE after the tailwind action and any App.tsx DELETE. */
  lemma {:induction false} AppCssAt(fs: Fs, safeMode: bool, j: nat)
    requires j < |PlannedActions(fs, safeMode)| && PlannedActions(fs, safeMode)[j].target == "src/App.css"
    ensures !safeMode && "src/App.css" in fs && j == if "src/App.tsx" in fs then 2 else 1
  {
    assert "src/App.css"[0] != "tailwind.config.js"[0];
    if safeMode {
      SafeTargets(fs, j);
    } else {
      FullTargets(fs, j);
      AppCssInSrc(fs, j - 1);
    }
  }

  /** When both DELETE actions are planned, src/App.tsx comes before src/App.css. */
  lemma {:induction false} AppTsxBeforeAppCss(fs: Fs, safeMode: bool, i: nat, j: nat)
    requires i < |PlannedActions(fs, safeMode)| && j < |PlannedActions(fs, safeMode)|
    requires PlannedActions(fs, safeMode)[i].target == "src/App.tsx"
    requires PlannedActions(fs, safeMode)[j].target == "src/App.css"
    ensures i < j
  {
    AppTsxAt(fs, safeMode, i);
    AppCssAt(fs, safeMode, j);
  }

  class Plan {
    const framework: string
    const safeMode: bool
    var actions: seq<Action>

    /** `Plan(framework, safe_mode)`: collect the actions for the directory `fs`. */
    constructor (framework: string, safeMode: bool, fs: Fs)
      ensures this.framework == framework && this.safeMode == safeMode
      ensures actions == PlannedActions(fs, safeMode)
    {
      this.framework := framework;
      this.safeMode := safeMode;
      actions := [];
      new;
      Generate(fs);
    }

    /** `_generate`: config files first, then the src restructure unless in safe mode. */
    method Generate(fs: Fs)
      modifies this
      ensures actions == old(actions) + PlannedActions(fs, safeMode)
    {
      PlanConfigFiles(fs);
      if !safeMode {
        PlanSrcRestructure(fs);
      }
    }

    /** `_plan_config_files`. */
    method PlanConfigFiles(fs: Fs)
      modifies this
      ensures actions == old(actions) + ConfigFileActions(fs, safeMode)
    {
      var present := "tailwind.config.js" in fs;
      if !present || !safeMode {
        var verb := if present then Overwrite else Create;
        actions := actions + [Action(verb, "tailwind.config.js", TailwindConfigCaption)];
      }
    }

    /** `_plan_src_restructure`. */
    method PlanSrcRestructure(fs: Fs)
      modifies this
      ensures actions == old(actions) + SrcRestructureActions(fs)
    {
      if "src/App.tsx" in fs {
        actions := actions + [DeleteAppTsx];
      }
      if "src/App.css" in fs {
        actions := actions + [DeleteAppCss];
      }
      actions := actions + [Action(Create, "src/layouts/", LayoutsCaption)];
      actions := actions + [Action(Create, "src/pages/", PagesCaption)];
      actions := actions + [Action(Overwrite, "src/main.tsx", EntryFileCaption)];
    }

    /** `display`: the message when there is nothing to do, otherwise one styled row per action, in order. */
    method Display() returns (view: View)
      ensures actions == [] <==> view == AlreadyConfigured
      ensures view.Table? ==> |view.rows| == |actions|
      ensures view.Table? ==> forall i :: 0 <= i < |actions| ==>
                view.rows[i] == Row(Label(actions[i]), actions[i].target, actions[i].description.Text())
    {
      if actions == [] {
        return AlreadyConfigured;
      }
      var rows: seq<Row> := [];
      var i := 0;
      while i < |actions|
        invariant 0 <= i <= |actions|
        invariant |rows| == i
        invariant forall k :: 0 <= k < i ==> rows[k] == Row(Label(actions[k]), actions[k].target, actions[k].description.Text())
      {
        var a := actions[i];
        var style := Green;
        if a.verb == Overwrite {
          style := Yellow;
        } else if a.verb == Delete {
          style := BoldRed;
        }
        rows := rows + [Row("[" + style.Markup() + "]" + VerbName(a.verb) + "[/]", a.target, a.description.Text())];
        i := i + 1;
      }
      view := Table(rows);
    }
  }
}
