/**
 * src/shacnify/core/steps.py: the setup steps `init` runs, each a
 * transformer of the World (project files, user configuration, command log)
 * that also reports success.  Writes and commands get their outcome from
 * the Oracle; `write_file` results the source ignores are ignored here too.
 */
module Steps {
  import opened Json
  import opened Host
  import opened Templates
  import opened ConfigManager

  // ---------------------------------------------------------------------------
  // install_tailwind_deps

  const TailwindDepsCommand: Command := "npm install -D tailwindcss postcss autoprefixer tailwindcss-animate"

  /** What `install_tailwind_deps` leaves: one more npm command, whose outcome is the step's outcome. */
  predicate TailwindDepsInstalled(w: World, env: Oracle, w': World, ok: bool) {
    && w'.files == w.files && w'.config == w.config
    && w'.ran == w.ran + [TailwindDepsCommand]
    && ok == env.succeeds(|w.ran|, TailwindDepsCommand)
  }

  /** `install_tailwind_deps`. */
  method InstallTailwindDeps(w: World, env: Oracle) returns (w': World, ok: bool)
    ensures TailwindDepsInstalled(w, env, w', ok)
  {
    var r := Run(w, env, TailwindDepsCommand);
    w', ok := r.0, r.1;
  }

  // ---------------------------------------------------------------------------
  // configure_tailwind

  const TailwindConfigPath: Path := "tailwind.config.js"
  const PostcssPath: Path := "postcss.config.js"
  const PostcssBody: Body := Text("module.exports = { plugins: { tailwindcss: {}, autoprefixer: {} } }")
  const TailwindDirectives: Body := Text("@tailwind base;\n@tailwind components;\n@tailwind utilities;\n")

  /** The main stylesheet `configure_tailwind` rewrites: app/globals.css for nextjs, src/index.css otherwise. */
  function StylesheetPath(tag: string): (p: Path)
    ensures p == "app/globals.css" <==> tag == "nextjs"
    ensures p == "src/index.css" <==> tag != "nextjs"
  {
    if tag == "nextjs" then "app/globals.css" else "src/index.css"
  }

  /** The stylesheet named in components.json is the one configure_tailwind writes, for every tag. */
  lemma {:induction false} StylesheetAgrees(tag: string)
    ensures ComponentsJson(tag).tailwind.css == StylesheetPath(tag)
  {
  }

  /** The `touch` of a missing stylesheet followed by the overwrite with the directives, whose outcome is `ok`. */
  function ResetStylesheet(fs: Fs, css: Path, ok: bool): (r: Fs)
    ensures css in r
    ensures ok ==> r[css] == File(TailwindDirectives)
    ensures !ok && css in fs ==> r[css] == fs[css]
    ensures !ok && css !in fs ==> r[css] == File(Text(""))
    ensures forall q :: q in fs && q != css ==> q in r && r[q] == fs[q]
    ensures forall q :: q in r && q !in fs && q != css ==> r[q] == Dir
  {
    var touched := if css in fs then fs else MkDirs(fs, ParentDirs(css))[css := File(Text(""))];
    WriteFile(touched, css, TailwindDirectives, ok)
  }

  /** A path `configure_tailwind` does not write to. */
  predicate OutsideTailwindSetup(q: Path, tag: string) {
    q != TailwindConfigPath && q != PostcssPath && q != StylesheetPath(tag)
  }

  /** The files `configure_tailwind` leaves behind and the outcome it reports. */
  function TailwindSetup(fs: Fs, env: Oracle, tag: string): (r: (Fs, bool))
    ensures fs.Keys <= r.0.Keys
    ensures r.1 ==> StylesheetPath(tag) in r.0
  {
    if !env.canWrite(TailwindConfigPath) then (fs, false)
    else
      var fs1 := WriteFile(fs, TailwindConfigPath, TailwindConfigContent(tag), true);
      if !env.canWrite(PostcssPath) then (fs1, false)
      else
        var css := StylesheetPath(tag);
        (ResetStylesheet(WriteFile(fs1, PostcssPath, PostcssBody, true), css, env.canWrite(css)), true)
  }

  /** What `configure_tailwind` leaves: no command, the configuration untouched, the files of TailwindSetup. */
  predicate TailwindConfigured(w: World, env: Oracle, tag: string, w': World, ok: bool) {
    w'.ran == w.ran && w'.config == w.config && (w'.files, ok) == TailwindSetup(w.files, env, tag)
  }

  /**
   * `configure_tailwind`: write tailwind.config.js, then postcss.config.js,
   * stopping with failure at the first write that fails; then create the
   * stylesheet if it is missing and overwrite it with the three directives,
   * whatever that last write does.
   */
  method ConfigureTailwind(w: World, env: Oracle, tag: string) returns (w': World, ok: bool)
    ensures TailwindConfigured(w, env, tag, w', ok)
  {
    if !env.canWrite(TailwindConfigPath) {
      return w, false;
    }
    var fs := WriteFile(w.files, TailwindConfigPath, TailwindConfigContent(tag), true);
    if !env.canWrite(PostcssPath) {
      return w.(files := fs), false;
    }
    fs := WriteFile(fs, PostcssPath, PostcssBody, true);
    var css := StylesheetPath(tag);
    if css !in fs {
      fs := MkDirs(fs, ParentDirs(css))[css := File(Text(""))];
    }
    fs := WriteFile(fs, css, TailwindDirectives, env.canWrite(css));
    return w.(files := fs), true;
  }

  /** The step fails exactly when one of the two configuration writes fails, and then stops right there. */
  lemma {:induction false} TailwindStopsAtFailedWrite(fs: Fs, env: Oracle, tag: string)
    ensures TailwindSetup(fs, env, tag).1 <==> env.canWrite(TailwindConfigPath) && env.canWrite(PostcssPath)
    ensures !env.canWrite(TailwindConfigPath) ==> TailwindSetup(fs, env, tag).0 == fs
    ensures env.canWrite(TailwindConfigPath) && !env.canWrite(PostcssPath) ==>
              TailwindSetup(fs, env, tag).0 == WriteFile(fs, TailwindConfigPath, TailwindConfigContent(tag), true)
  {
  }

  /** Each configuration write that is reached and succeeds leaves its file in place. */
  lemma {:induction false} TailwindConfigsWritten(fs: Fs, env: Oracle, tag: string)
    ensures var r := TailwindSetup(fs, env, tag).0;
            env.canWrite(TailwindConfigPath) ==>
              TailwindConfigPath in r && r[TailwindConfigPath] == File(TailwindConfigContent(tag))
    ensures var r := TailwindSetup(fs, env, tag);
            r.1 ==> PostcssPath in r.0 && r.0[PostcssPath] == File(PostcssBody)
  {
    assert TailwindConfigPath != PostcssPath && TailwindConfigPath != StylesheetPath(tag)
           && PostcssPath != StylesheetPath(tag);
  }

  /**
   * After a successful step the stylesheet exists; it holds exactly the
   * three directives when that write succeeds, and otherwise what it held
   * before, or nothing if it was just created.
   */
  lemma {:induction false} StylesheetOverwritten(fs: Fs, env: Oracle, tag: string)
    ensures var r := TailwindSetup(fs, env, tag);
            var css := StylesheetPath(tag);
            r.1 ==>
              && css in r.0
              && (env.canWrite(css) ==> r.0[css] == File(TailwindDirectives))
              && (!env.canWrite(css) && css in fs ==> r.0[css] == fs[css])
              && (!env.canWrite(css) && css !in fs ==> r.0[css] == File(Text("")))
  {
    var css := StylesheetPath(tag);
    assert TailwindConfigPath != css && PostcssPath != css;
    NotAParent(css, TailwindConfigPath, 0);
    NotAParent(css, PostcssPath, 0);
  }

  /** Every other existing entry is left as it was, and anything else new is a directory. */
  lemma {:induction false} TailwindKeepsOthers(fs: Fs, env: Oracle, tag: string)
    ensures var r := TailwindSetup(fs, env, tag).0;
            forall q :: q in fs && OutsideTailwindSetup(q, tag) ==> q in r && r[q] == fs[q]
    ensures var r := TailwindSetup(fs, env, tag).0;
            forall q :: q in r && q !in fs && OutsideTailwindSetup(q, tag) ==> r[q] == Dir
  {
    if env.canWrite(TailwindConfigPath) && env.canWrite(PostcssPath) {
      var css := StylesheetPath(tag);
      var fs1 := WriteFile(fs, TailwindConfigPath, TailwindConfigContent(tag), true);
      var fs2 := WriteFile(fs1, PostcssPath, PostcssBody, true);
      var r := ResetStylesheet(fs2, css, env.canWrite(css));
      forall q | q in r && q !in fs && OutsideTailwindSetup(q, tag)
        ensures r[q] == Dir
      {
        if q in fs2 && q in fs1 {
          assert fs1[q] == Dir;
        }
      }
    }
  }

  // ---------------------------------------------------------------------------
  // restructure_src_directory

  const FilesToRemove: seq<Path> := ["src/App.css", "src/App.tsx", "src/assets/react.svg"]
  const AssetsDir: Path := "src/assets"
  const DirsToCreate: seq<Path> := ["src/components/ui", "src/lib", "src/layouts", "src/pages"]
  const RouterCommand: Command := "npm install react-router-dom"

  /** The template files `restructure_src_directory` writes, in order, and the template of each. */
  const NewPaths: seq<Path> := ["src/App.tsx", "src/main.tsx", "src/layouts/MainLayout.tsx", "src/pages/HomePage.tsx"]
  const NewTemplates: seq<Template> := [AppTsx, MainTsx, MainLayoutTsx, HomePageTsx]

  /** Some entry of `fs` lies inside directory `d` (`any(d.iterdir())`). */
  predicate HasEntriesUnder(fs: Fs, d: Path) {
    exists q :: q in fs && d + "/" <= q
  }

  /** src/assets holds nothing once src/assets/react.svg is unlinked, so `rmdir` removes it. */
  predicate AssetsEmptied(fs: Fs) {
    && AssetsDir in fs && fs[AssetsDir].Dir?
    && forall q :: q in fs && AssetsDir + "/" <= q ==> q == "src/assets/react.svg" && fs[q].File?
  }

  /**
   * Creating `p` with its parents never recreates what the clean-up
   * removed: no directory `mkdir(parents=True)` makes above `p` is one of
   * FilesToRemove or src/assets.
   */
  predicate OutsideRemoved(p: Path) {
    forall d :: d in ParentDirs(p) ==> Spared(d)
  }

  /**
   * A test on the characters of `p` that implies OutsideRemoved: a path
   * under src/ that does not continue with 'a' (as src/assets does), and is
   * no longer than src/App.css when it continues with 'A'.
   */
  predicate ShapedOutsideRemoved(p: Path) {
    |p| > 4 && p[..4] == "src/" && p[4] != 'a' && (p[4] == 'A' ==> |p| <= 11)
  }

  lemma {:induction false} CreatedPathsOutsideRemoved()
    ensures forall k :: 0 <= k < |NewPaths| ==> OutsideRemoved(NewPaths[k])
    ensures forall k :: 0 <= k < |DirsToCreate| ==> OutsideRemoved(DirsToCreate[k])
  {
    forall k | 0 <= k < |NewPaths| ensures OutsideRemoved(NewPaths[k]) {
      CreationSparesRemoved(NewPaths[k]);
    }
    forall k | 0 <= k < |DirsToCreate| ensures OutsideRemoved(DirsToCreate[k]) {
      CreationSparesRemoved(DirsToCreate[k]);
    }
  }

  /** A path is not among the directories created for `p` when the two differ at an index inside both. */
  lemma {:induction false} NotAParent(d: Path, p: Path, j: nat)
    requires j < |d| && j < |p| && d[j] != p[j]
    ensures d !in ParentDirs(p)
  {
  }

  /** A path is not among the directories created for `p` when it is at least as long as `p`. */
  lemma {:induction false} NotAParentByLength(d: Path, p: Path)
    requires |d| >= |p|
    ensures d !in ParentDirs(p)
  {
  }

  /** The character test is enough: such a path is OutsideRemoved. */
  lemma {:induction false} CreationSparesRemoved(p: Path)
    requires ShapedOutsideRemoved(p)
    ensures OutsideRemoved(p)
  {
    assert p[4] != AssetsDir[4];
    NotAParent(AssetsDir, p, 4);
    NotAParent("src/assets/react.svg", p, 4);
    if p[4] == 'A' {
      NotAParentByLength("src/App.css", p);
      NotAParentByLength("src/App.tsx", p);
    } else {
      NotAParent("src/App.css", p, 4);
      NotAParent("src/App.tsx", p, 4);
    }
  }

  /** The clean-up loop: unlink each of FilesToRemove that is a file. */
  method RemoveDefaultFiles(fs: Fs) returns (fs': Fs)
    ensures forall q :: q in fs' ==> q in fs && fs'[q] == fs[q]
    ensures forall q :: q in fs && (q !in FilesToRemove || fs[q] == Dir) ==> q in fs'
    ensures forall q :: q in fs && q in FilesToRemove && fs[q].File? ==> q !in fs'
  {
    fs' := fs;
    var i := 0;
    while i < |FilesToRemove|
      invariant 0 <= i <= |FilesToRemove|
      invariant forall q :: q in fs' ==> q in fs && fs'[q] == fs[q]
      invariant forall q :: q in fs && (q !in FilesToRemove[..i] || fs[q] == Dir) ==> q in fs'
      invariant forall q :: q in fs && q in FilesToRemove[..i] && fs[q].File? ==> q !in fs'
    {
      var f := FilesToRemove[i];
      if f in fs' && fs'[f].File? {
        fs' := fs' - {f};
      }
      i := i + 1;
    }
    assert FilesToRemove[..i] == FilesToRemove;
  }

  /** `rmdir` of src/assets when it is a directory with nothing in it. */
  function RemoveEmptyAssets(fs: Fs): (r: Fs)
    ensures AssetsDir in r <==> AssetsDir in fs && !(fs[AssetsDir].Dir? && !HasEntriesUnder(fs, AssetsDir))
    ensures forall q :: q in r ==> q in fs && r[q] == fs[q]
    ensures forall q :: q in fs && q != AssetsDir ==> q in r
  {
    if AssetsDir in fs && fs[AssetsDir].Dir? && !HasEntriesUnder(fs, AssetsDir) then fs - {AssetsDir} else fs
  }

  /** After the clean-up, src/assets is removed exactly when it held nothing but a react.svg file. */
  lemma {:induction false} AssetsRemovedIffEmptied(fs: Fs, cleaned: Fs)
    requires forall q :: q in cleaned ==> q in fs && cleaned[q] == fs[q]
    requires forall q :: q in fs && (q !in FilesToRemove || fs[q] == Dir) ==> q in cleaned
    requires forall q :: q in fs && q in FilesToRemove && fs[q].File? ==> q !in cleaned
    ensures AssetsDir in RemoveEmptyAssets(cleaned) <==> AssetsDir in fs && !AssetsEmptied(fs)
  {
    assert "src/App.css"[4] != AssetsDir[4] && "src/App.tsx"[4] != AssetsDir[4];
    assert AssetsDir !in FilesToRemove;
    if AssetsDir in fs && fs[AssetsDir].Dir? {
      if !AssetsEmptied(fs) {
        var q :| q in fs && AssetsDir + "/" <= q && !(q == "src/assets/react.svg" && fs[q].File?);
        if q in FilesToRemove {
          assert q == "src/App.css" || q == "src/App.tsx" || q == "src/assets/react.svg";
          assert q[4] == (AssetsDir + "/")[4];
        }
        assert q in cleaned;
      }
    }
  }

  /** The mkdir loop: each of DirsToCreate exists afterwards, with its parents; nothing that exists changes. */
  method CreateDirs(fs: Fs) returns (fs': Fs)
    ensures forall q :: q in fs ==> q in fs' && fs'[q] == fs[q]
    ensures forall q :: q in fs' && q !in fs ==> fs'[q] == Dir && q !in FilesToRemove && q != AssetsDir && Laid(q)
    ensures forall k :: 0 <= k < |DirsToCreate| ==> DirsToCreate[k] in fs'
  {
    fs' := fs;
    CreatedPathsOutsideRemoved();
    var i := 0;
    while i < |DirsToCreate|
      invariant 0 <= i <= |DirsToCreate|
      invariant forall q :: q in fs ==> q in fs' && fs'[q] == fs[q]
      invariant forall q :: q in fs' && q !in fs ==> fs'[q] == Dir && q !in FilesToRemove && q != AssetsDir && Laid(q)
      invariant forall k :: 0 <= k < i ==> DirsToCreate[k] in fs'
    {
      var d := DirsToCreate[i];
      assert OutsideRemoved(d) && Spared(d);
      DirLaid(i);
      fs' := MkDirs(fs', ParentDirs(d) + {d});
      i := i + 1;
    }
  }

  /** A path that neither the clean-up nor the `rmdir` of src/assets can remove. */
  predicate Spared(q: Path) {
    q !in FilesToRemove && q != AssetsDir
  }

  /**
   * A path `restructure_src_directory` may create: one of DirsToCreate or
   * NewPaths, or a directory `mkdir(parents=True)` makes above one of them.
   */
  predicate Laid(q: Path) {
    || (exists k :: 0 <= k < |DirsToCreate| && (q == DirsToCreate[k] || q in ParentDirs(DirsToCreate[k])))
    || (exists k :: 0 <= k < |NewPaths| && (q == NewPaths[k] || q in ParentDirs(NewPaths[k])))
  }

  /** Each of DirsToCreate and the directories above it are laid out. */
  lemma {:induction false} DirLaid(i: nat)
    requires i < |DirsToCreate|
    ensures forall q :: q in ParentDirs(DirsToCreate[i]) + {DirsToCreate[i]} ==> Laid(q)
  {
  }

  /** A path the template writes put a file at. */
  predicate Rewritten(q: Path, env: Oracle) {
    q in NewPaths && env.canWrite(q)
  }

  /** One template write of `restructure_src_directory`, for a path the clean-up does not touch above. */
  function WriteTemplate(fs: Fs, p: Path, t: Template, ok: bool): (r: Fs)
    requires OutsideRemoved(p)
    ensures ok ==> p in r && r[p] == File(Generated(t))
    ensures !ok ==> r == fs
    ensures forall q :: q in fs && q != p ==> q in r && r[q] == fs[q]
    ensures forall q :: q in r && q !in fs && q != p ==> r[q] == Dir && Spared(q) && q in ParentDirs(p)
  {
    WriteFile(fs, p, Generated(t), ok)
  }

  /** The four template writes, in order; their outcomes come from the oracle and are ignored. */
  function WriteTemplates(fs: Fs, env: Oracle): (r: Fs)
    ensures fs.Keys <= r.Keys
  {
    CreatedPathsOutsideRemoved();
    var fs1 := WriteTemplate(fs, NewPaths[0], NewTemplates[0], env.canWrite(NewPaths[0]));
    var fs2 := WriteTemplate(fs1, NewPaths[1], NewTemplates[1], env.canWrite(NewPaths[1]));
    var fs3 := WriteTemplate(fs2, NewPaths[2], NewTemplates[2], env.canWrite(NewPaths[2]));
    WriteTemplate(fs3, NewPaths[3], NewTemplates[3], env.canWrite(NewPaths[3]))
  }

  lemma {:induction false} NewPathsDistinct()
    ensures forall i, j :: 0 <= i < j < |NewPaths| ==> NewPaths[i] != NewPaths[j]
  {
    assert |NewPaths[0]| == |NewPaths[1]| - 1;
    assert NewPaths[1][4] != NewPaths[2][4] && NewPaths[1][4] != NewPaths[3][4];
    assert NewPaths[0][4] != NewPaths[2][4] && NewPaths[0][4] != NewPaths[3][4];
    assert NewPaths[2][4] != NewPaths[3][4];
  }

  /** Each path whose write succeeds holds its template afterwards. */
  lemma {:induction false} TemplatesWritten(fs: Fs, env: Oracle)
    ensures var r := WriteTemplates(fs, env);
            forall k :: 0 <= k < |NewPaths| && env.canWrite(NewPaths[k]) ==>
              NewPaths[k] in r && r[NewPaths[k]] == File(Generated(NewTemplates[k]))
  {
    NewPathsDistinct();
  }

  /** Going from `fs` to `r`, every entry that is not a rewritten template keeps its content. */
  predicate KeepsUnwritten(fs: Fs, r: Fs, env: Oracle) {
    forall q :: q in fs && !Rewritten(q, env) ==> q in r && r[q] == fs[q]
  }

  /** Going from `fs` to `r`, every new entry is laid out, and one that is not a rewritten template is a spared directory. */
  predicate AddsOnlyDirs(fs: Fs, r: Fs, env: Oracle) {
    forall q :: q in r && q !in fs ==> Laid(q) && (!Rewritten(q, env) ==> r[q] == Dir && Spared(q))
  }

  /** One template write keeps and adds as both predicates say. */
  lemma {:induction false} TemplateStep(fs: Fs, env: Oracle, k: nat)
    requires k < |NewPaths|
    ensures OutsideRemoved(NewPaths[k])
    ensures var r := WriteTemplate(fs, NewPaths[k], NewTemplates[k], env.canWrite(NewPaths[k]));
            KeepsUnwritten(fs, r, env) && AddsOnlyDirs(fs, r, env)
  {
    CreatedPathsOutsideRemoved();
    var p := NewPaths[k];
    var r := WriteTemplate(fs, p, NewTemplates[k], env.canWrite(p));
    forall q | q in fs && !Rewritten(q, env)
      ensures q in r && r[q] == fs[q]
    {
      if q == p {
        assert q in NewPaths;
      }
    }
    forall q | q in r && q !in fs
      ensures Laid(q)
    {
      assert q == NewPaths[k] || q in ParentDirs(NewPaths[k]);
    }
  }

  /** Both predicates compose along a sequence of writes. */
  lemma {:induction false} StepsCompose(a: Fs, b: Fs, c: Fs, env: Oracle)
    requires KeepsUnwritten(a, b, env) && AddsOnlyDirs(a, b, env)
    requires KeepsUnwritten(b, c, env) && AddsOnlyDirs(b, c, env)
    ensures KeepsUnwritten(a, c, env) && AddsOnlyDirs(a, c, env)
  {
    forall q | q in c && q !in a
      ensures Laid(q) && (!Rewritten(q, env) ==> c[q] == Dir && Spared(q))
    {
      if q in b {
        assert Laid(q);
      }
    }
  }

  /** An existing entry the template writes do not overwrite keeps its content, and anything else new is a directory. */
  lemma {:induction false} TemplatesKeepOthers(fs: Fs, env: Oracle)
    ensures KeepsUnwritten(fs, WriteTemplates(fs, env), env)
    ensures AddsOnlyDirs(fs, WriteTemplates(fs, env), env)
  {
    CreatedPathsOutsideRemoved();
    var fs1 := WriteTemplate(fs, NewPaths[0], NewTemplates[0], env.canWrite(NewPaths[0]));
    var fs2 := WriteTemplate(fs1, NewPaths[1], NewTemplates[1], env.canWrite(NewPaths[1]));
    var fs3 := WriteTemplate(fs2, NewPaths[2], NewTemplates[2], env.canWrite(NewPaths[2]));
    var r := WriteTemplate(fs3, NewPaths[3], NewTemplates[3], env.canWrite(NewPaths[3]));
    TemplateStep(fs, env, 0);
    TemplateStep(fs1, env, 1);
    TemplateStep(fs2, env, 2);
    TemplateStep(fs3, env, 3);
    StepsCompose(fs, fs1, fs2, env);
    StepsCompose(fs, fs2, fs3, env);
    StepsCompose(fs, fs3, r, env);
  }

  /** No directory the step creates is one of the template paths: the templates end in 'x', the directories do not. */
  lemma {:induction false} DirNotTemplate(k: nat)
    requires k < |DirsToCreate|
    ensures DirsToCreate[k] !in NewPaths
  {
    forall j | 0 <= j < |NewPaths|
      ensures DirsToCreate[k] != NewPaths[j]
    {
      assert NewPaths[j][|NewPaths[j]| - 1] == 'x';
      assert DirsToCreate[k][|DirsToCreate[k]| - 1] != 'x';
    }
  }

  /** The creation half of `restructure_src_directory`: the four directories, then the four template files. */
  method LayOut(fs: Fs, env: Oracle) returns (fs': Fs)
    ensures forall k :: 0 <= k < |DirsToCreate| ==> DirsToCreate[k] in fs'
    ensures forall k :: 0 <= k < |NewPaths| && env.canWrite(NewPaths[k]) ==>
              NewPaths[k] in fs' && fs'[NewPaths[k]] == File(Generated(NewTemplates[k]))
    ensures forall q :: q in fs && !Rewritten(q, env) ==> q in fs' && fs'[q] == fs[q]
    ensures forall q :: q in fs' && q !in fs && !Rewritten(q, env) ==> fs'[q] == Dir && Spared(q)
    ensures forall q :: q in fs' && q !in fs ==> Laid(q)
  {
    var laidOut := CreateDirs(fs);
    fs' := WriteTemplates(laidOut, env);
    TemplatesWritten(laidOut, env);
    TemplatesKeepOthers(laidOut, env);
    forall k | 0 <= k < |DirsToCreate|
      ensures DirsToCreate[k] in fs'
    {
      assert DirsToCreate[k] in laidOut;
      DirNotTemplate(k);
    }
    forall q | q in fs' && q !in fs && !Rewritten(q, env)
      ensures fs'[q] == Dir && Spared(q)
    {
      if q in laidOut {
        assert laidOut[q] == Dir;
      }
    }
  }

  /**
   * What `restructure_src_directory` leaves: the configuration untouched,
   * react-router-dom installed with its outcome as the step's outcome; the
   * removed defaults gone unless they were directories or src/App.tsx was
   * rewritten; src/assets gone exactly when it held only react.svg; the four
   * directories and the written templates present; every other spared entry
   * kept, and nothing new but directories besides the templates.
   */
  predicate SrcRestructured(w: World, env: Oracle, w': World, ok: bool) {
    && w'.config == w.config
    && w'.ran == w.ran + [RouterCommand]
    && ok == env.succeeds(|w.ran|, RouterCommand)
    && ("src/App.css" in w'.files ==> "src/App.css" in w.files && w.files["src/App.css"] == Dir)
    && ("src/assets/react.svg" in w'.files ==>
          "src/assets/react.svg" in w.files && w.files["src/assets/react.svg"] == Dir)
    && ("src/App.tsx" in w'.files ==>
          env.canWrite("src/App.tsx") || ("src/App.tsx" in w.files && w.files["src/App.tsx"] == Dir))
    && (AssetsDir in w'.files <==> AssetsDir in w.files && !AssetsEmptied(w.files))
    && (AssetsDir in w'.files ==> w'.files[AssetsDir] == w.files[AssetsDir])
    && (forall k :: 0 <= k < |DirsToCreate| ==> DirsToCreate[k] in w'.files)
    && (forall k :: 0 <= k < |NewPaths| && env.canWrite(NewPaths[k]) ==>
          NewPaths[k] in w'.files && w'.files[NewPaths[k]] == File(Generated(NewTemplates[k])))
    && (forall q :: q in w.files && Spared(q) && q !in NewPaths ==> q in w'.files && w'.files[q] == w.files[q])
    && (forall q :: q in w'.files && q !in w.files && q !in NewPaths ==> w'.files[q] == Dir)
    && (forall q :: q in w'.files && q !in w.files ==> Laid(q))
  }

  /**
   * `restructure_src_directory`: unlink the three default files, drop
   * src/assets when that leaves it empty, create the four directories, write
   * the four template files (their write results are ignored) and install
   * react-router-dom, whose outcome is the step's outcome.  Only a file is
   * unlinked and only a directory is removed by `rmdir`.
   */
  method RestructureSrc(w: World, env: Oracle) returns (w': World, ok: bool)
    ensures SrcRestructured(w, env, w', ok)
  {
    var fs := CleanUp(w.files);
    var written := LayOut(fs, env);
    assert !Rewritten("src/App.css", env) && !Rewritten("src/assets/react.svg", env) && !Rewritten(AssetsDir, env);
    assert env.canWrite("src/App.tsx") <==> Rewritten("src/App.tsx", env);
    var r := Run(w.(files := written), env, RouterCommand);
    w', ok := r.0, r.1;
  }

  /**
   * The clean-up half of `restructure_src_directory`: the removed defaults
   * survive only as directories, src/assets goes exactly when it is
   * emptied, and nothing else changes.
   */
  method CleanUp(fs: Fs) returns (fs': Fs)
    ensures forall q :: q in fs' ==> q in fs && fs'[q] == fs[q]
    ensures forall q :: q in fs && Spared(q) ==> q in fs'
    ensures "src/App.css" in fs' ==> fs["src/App.css"] == Dir
    ensures "src/App.tsx" in fs' ==> fs["src/App.tsx"] == Dir
    ensures "src/assets/react.svg" in fs' ==> fs["src/assets/react.svg"] == Dir
    ensures AssetsDir in fs' <==> AssetsDir in fs && !AssetsEmptied(fs)
  {
    var cleaned := RemoveDefaultFiles(fs);
    AssetsRemovedIffEmptied(fs, cleaned);
    fs' := RemoveEmptyAssets(cleaned);
  }

  // ---------------------------------------------------------------------------
  // configure_alias

  /** The file `configure_alias` edits: tsconfig.json when it exists, otherwise jsconfig.json. */
  function AliasTarget(fs: Fs): (p: Path)
    ensures p == "tsconfig.json" <==> "tsconfig.json" in fs
    ensures p == "jsconfig.json" <==> "tsconfig.json" !in fs
  {
    if "tsconfig.json" in fs then "tsconfig.json" else "jsconfig.json"
  }

  /** What `configure_alias` starts from: `{}` for a missing file, the decoded value, or nothing when reading fails. */
  function AliasSource(fs: Fs): (r: Option<Json>)
    ensures AliasTarget(fs) !in fs ==> r == Some(JObj(map[]))
    ensures r.None? <==> AliasTarget(fs) in fs && (fs[AliasTarget(fs)].Dir? || !fs[AliasTarget(fs)].body.Doc?)
  {
    var p := AliasTarget(fs);
    if p !in fs then Some(JObj(map[]))
    else if fs[p].Dir? then None
    else Decoded(fs[p].body)
  }

  /**
   * The configuration can be edited: it was read, it is an object, and its
   * compilerOptions, if any, is an object too.  Any other value makes one of
   * the `in` tests or item assignments raise, which `configure_alias` catches.
   */
  predicate AliasEditable(fs: Fs) {
    var r := AliasSource(fs);
    r.Some? && r.value.JObj?
    && ("compilerOptions" in r.value.fields ==> r.value.fields["compilerOptions"].JObj?)
  }

  const PathsEntry: Json := JObj(map["@/*" := JArr([JStr("./src/*")])])
  const IncludeDefault: Json := JArr([JStr("src")])

  /**
   * `m` is the configuration object `old_` after the alias edit:
   * compilerOptions gains baseUrl "." and the path mapping PathsEntry, keeps
   * its other keys, `include` is added only when missing, and every other
   * top-level key is kept.
   */
  predicate AliasMerged(old_: map<string, Json>, m: map<string, Json>) {
    var oldOpts := if "compilerOptions" in old_ && old_["compilerOptions"].JObj? then old_["compilerOptions"].fields else map[];
    && m.Keys == old_.Keys + {"compilerOptions", "include"}
    && (forall k :: k in old_ && k != "compilerOptions" ==> m[k] == old_[k])
    && ("include" !in old_ ==> m["include"] == IncludeDefault)
    && m["compilerOptions"].JObj?
    && var opts := m["compilerOptions"].fields;
    && opts.Keys == oldOpts.Keys + {"baseUrl", "paths"}
    && opts["baseUrl"] == JStr(".")
    && opts["paths"] == PathsEntry
    && (forall k :: k in oldOpts && k != "baseUrl" && k != "paths" ==> opts[k] == oldOpts[k])
  }

  /** The in-place edits of `configure_alias` on the loaded object. */
  method EditAliases(data: map<string, Json>) returns (m: map<string, Json>)
    requires "compilerOptions" in data ==> data["compilerOptions"].JObj?
    ensures AliasMerged(data, m)
  {
    m := data;
    if "compilerOptions" !in m {
      m := m["compilerOptions" := JObj(map[])];
    }
    var opts := m["compilerOptions"].fields;
    opts := opts["baseUrl" := JStr(".")];
    opts := opts["paths" := PathsEntry];
    m := m["compilerOptions" := JObj(opts)];
    if "include" !in m {
      m := m["include" := IncludeDefault];
    }
  }

  /**
   * What `configure_alias` leaves: no command and the configuration
   * untouched; success exactly when the target can be edited; nothing
   * changed on failure or when the final write fails; otherwise the target
   * holds the merged object and every other entry is kept.
   */
  predicate AliasConfigured(w: World, env: Oracle, w': World, ok: bool) {
    && w'.ran == w.ran && w'.config == w.config
    && (ok <==> AliasEditable(w.files))
    && (!ok || !env.canWrite(AliasTarget(w.files)) ==> w' == w)
    && (ok && env.canWrite(AliasTarget(w.files)) ==>
          var p := AliasTarget(w.files);
          && p in w'.files && w'.files[p].File? && w'.files[p].body.Doc? && w'.files[p].body.value.JObj?
          && AliasMerged(AliasSource(w.files).value.fields, w'.files[p].body.value.fields))
    && (ok && env.canWrite(AliasTarget(w.files)) ==>
          forall q :: q in w.files && q != AliasTarget(w.files) ==> q in w'.files && w'.files[q] == w.files[q])
    && (ok && env.canWrite(AliasTarget(w.files)) ==> w'.files.Keys == w.files.Keys + {AliasTarget(w.files)})
  }

  /** A file at the top of the project has no directory above it to create. */
  lemma {:induction false} TopLevelHasNoParents(p: Path)
    requires p == "tsconfig.json" || p == "jsconfig.json"
    ensures ParentDirs(p) == {}
  {
    forall i | 0 < i < |p|
      ensures p[i] != '/'
    {
    }
  }

  /**
   * `configure_alias`: load the target, edit it as EditAliases does and
   * write it back.  The outcome is failure exactly when loading or editing
   * raises; the result of the final write is ignored.
   */
  method ConfigureAlias(w: World, env: Oracle) returns (w': World, ok: bool)
    ensures AliasConfigured(w, env, w', ok)
  {
    var target := AliasTarget(w.files);
    var data: Json := JObj(map[]);
    if target in w.files {
      var node := w.files[target];
      if node.Dir? || !node.body.Doc? {
        return w, false;
      }
      data := node.body.value;
    }
    if !data.JObj? {
      return w, false;
    }
    if "compilerOptions" in data.fields && !data.fields["compilerOptions"].JObj? {
      return w, false;
    }
    var fields := EditAliases(data.fields);
    assert AliasEditable(w.files) && AliasSource(w.files) == Some(data);
    TopLevelHasNoParents(target);
    var fs := WriteFile(w.files, target, Doc(JObj(fields)), env.canWrite(target));
    return w.(files := fs), true;
  }

  // ---------------------------------------------------------------------------
  // initialize_shadcn

  const ComponentsJsonPath: Path := "components.json"
  const ShadcnDepsCommand: Command :=
    "npm install class-variance-authority clsx lucide-react tailwind-merge react-hook-form zod @hookform/resolvers"

  /**
   * What `initialize_shadcn` leaves: nothing changed and failure when
   * components.json cannot be written; otherwise components.json for the
   * framework, one more npm command, and that command's outcome.
   */
  predicate ShadcnInitialized(w: World, env: Oracle, tag: string, w': World, ok: bool) {
    && w'.config == w.config
    && (!env.canWrite(ComponentsJsonPath) ==> w' == w && !ok)
    && (env.canWrite(ComponentsJsonPath) ==>
          && w'.files == WriteFile(w.files, ComponentsJsonPath, Generated(ComponentsJsonFile(ComponentsJson(tag))), true)
          && w'.ran == w.ran + [ShadcnDepsCommand]
          && ok == env.succeeds(|w.ran|, ShadcnDepsCommand))
  }

  /** `initialize_shadcn`: write components.json, and only if that worked install the shadcn dependencies. */
  method InitializeShadcn(w: World, env: Oracle, tag: string) returns (w': World, ok: bool)
    ensures ShadcnInitialized(w, env, tag, w', ok)
  {
    if !env.canWrite(ComponentsJsonPath) {
      return w, false;
    }
    var fs := WriteFile(w.files, ComponentsJsonPath, Generated(ComponentsJsonFile(ComponentsJson(tag))), true);
    var r := Run(w.(files := fs), env, ShadcnDepsCommand);
    w', ok := r.0, r.1;
  }

  // ---------------------------------------------------------------------------
  // _prompt_for_components

  /** The components the prompt offers, as `_prompt_for_components` lists them. */
  const Catalogue: seq<string> := [
    "button", "input", "form", "card", "dialog", "table", "sonner", "dropdown-menu",
    "avatar", "badge", "alert", "label", "select", "checkbox", "radio-group",
    "slider", "switch", "textarea"]

  /** The same list after `available_components.sort()`. */
  const SortedCatalogue: seq<string> := [
    "alert", "avatar", "badge", "button", "card", "checkbox", "dialog", "dropdown-menu",
    "form", "input", "label", "radio-group", "select", "slider", "sonner", "switch",
    "table", "textarea"]

  /** Python's `<` on strings: lexicographic by code point, a proper prefix first. */
  predicate StrLess(a: string, b: string)
    decreases |a|
  {
    |b| > 0 && (|a| == 0 || a[0] < b[0] || (a[0] == b[0] && StrLess(a[1..], b[1..])))
  }

  /** SortedCatalogue is strictly ascending. */
  lemma {:induction false} CatalogueSorted()
    ensures forall i :: 0 < i < |SortedCatalogue| ==> StrLess(SortedCatalogue[i - 1], SortedCatalogue[i])
  {
    var c := SortedCatalogue;
    forall i | 0 < i < |c|
      ensures StrLess(c[i - 1], c[i])
    {
      if c[i - 1][0] == c[i][0] {
        assert StrLess(c[i - 1][1..], c[i][1..]);
      }
    }
  }

  /** Sorting keeps the entries: both lists are as long and hold the same names. */
  lemma {:induction false} CatalogueSameEntries()
    ensures |SortedCatalogue| == |Catalogue|
    ensures forall x :: x in Catalogue <==> x in SortedCatalogue
  {
    assert Catalogue[0] == SortedCatalogue[3];
    assert Catalogue[1] == SortedCatalogue[9];
    assert Catalogue[2] == SortedCatalogue[8];
    assert Catalogue[3] == SortedCatalogue[4];
    assert Catalogue[4] == SortedCatalogue[6];
    assert Catalogue[5] == SortedCatalogue[16];
    assert Catalogue[6] == SortedCatalogue[14];
    assert Catalogue[7] == SortedCatalogue[7];
    assert Catalogue[8] == SortedCatalogue[1];
    assert Catalogue[9] == SortedCatalogue[2];
    assert Catalogue[10] == SortedCatalogue[0];
    assert Catalogue[11] == SortedCatalogue[10];
    assert Catalogue[12] == SortedCatalogue[12];
    assert Catalogue[13] == SortedCatalogue[5];
    assert Catalogue[14] == SortedCatalogue[11];
    assert Catalogue[15] == SortedCatalogue[13];
    assert Catalogue[16] == SortedCatalogue[15];
    assert Catalogue[17] == SortedCatalogue[17];
  }

  const DefaultSelection: Json := JArr([JStr("button"), JStr("input"), JStr("form"), JStr("card")])

  /** A value `name in value` can be asked of without raising. */
  predicate IsContainer(v: Json) {
    v.JObj? || v.JArr? || v.JStr?
  }

  /** The prompt's choices: the sorted catalogue, each ticked iff `name in selection`. */
  function Choices(selection: Json): (r: Outcome<seq<Choice>>)
    ensures r.Raised? <==> !IsContainer(selection)
    ensures r.Returned? ==>
              && |r.value| == |SortedCatalogue|
              && forall i :: 0 <= i < |r.value| ==>
                   r.value[i].name == SortedCatalogue[i]
                   && (r.value[i].enabled <==> In(SortedCatalogue[i], selection) == Returned(true))
  {
    if IsContainer(selection) then
      Returned(seq(|SortedCatalogue|, i requires 0 <= i < |SortedCatalogue| =>
        Choice(SortedCatalogue[i], In(SortedCatalogue[i], selection) == Returned(true))))
    else Raised
  }

  /** Without a `default_components` setting, exactly button, card, form and input are ticked. */
  lemma {:induction false} DefaultTicks()
    ensures Choices(DefaultSelection).Returned?
    ensures var cs := Choices(DefaultSelection).value;
            forall i :: 0 <= i < |cs| ==>
              (cs[i].enabled <==> cs[i].name == "button" || cs[i].name == "input" || cs[i].name == "form" || cs[i].name == "card")
  {
    var cs := Choices(DefaultSelection).value;
    forall i | 0 <= i < |cs|
      ensures cs[i].enabled <==> cs[i].name == "button" || cs[i].name == "input" || cs[i].name == "form" || cs[i].name == "card"
    {
      assert In(SortedCatalogue[i], DefaultSelection) == Returned(JStr(SortedCatalogue[i]) in DefaultSelection.items);
    }
  }

  /**
   * What `_prompt_for_components` returns for the loaded configuration:
   * reading `default_components` raises when the configuration is not an
   * object, building the choices raises when the setting is not a
   * container, and an interrupt gives the empty list.
   */
  function PromptAnswer(config: Json, env: Oracle): (r: Outcome<seq<string>>)
    ensures r.Raised? <==> !config.JObj? || !IsContainer(Get(config, "default_components", DefaultSelection).value)
    ensures r.Returned? ==>
              var cs := Choices(Get(config, "default_components", DefaultSelection).value).value;
              r.value == (if env.checkbox(cs).Interrupted? then [] else env.checkbox(cs).names)
  {
    match Get(config, "default_components", DefaultSelection)
    case Raised => Raised
    case Returned(selection) =>
      match Choices(selection)
      case Raised => Raised
      case Returned(cs) =>
        match env.checkbox(cs)
        case Interrupted => Returned([])
        case Picked(names) => Returned(names)
  }

  // ---------------------------------------------------------------------------
  // _install_components

  function AddCommand(component: string): Command {
    "npx shadcn@latest add " + component + " -y"
  }

  /** The commands installing `components`, one per entry, in order. */
  function InstallCommands(components: seq<string>): (r: seq<Command>)
    ensures |r| == |components|
    ensures forall i :: 0 <= i < |r| ==> r[i] == AddCommand(components[i])
  {
    seq(|components|, i requires 0 <= i < |components| => AddCommand(components[i]))
  }

  /** Every install command, issued from log position `start` on, succeeds. */
  predicate AllSucceed(env: Oracle, start: nat, components: seq<string>) {
    forall i :: 0 <= i < |components| ==> env.succeeds(start + i, AddCommand(components[i]))
  }

  /**
   * `_install_components`: try every component once, in order, carrying on
   * past failures; the outcome is the conjunction of the attempts.
   */
  method InstallComponents(w: World, env: Oracle, components: seq<string>) returns (w': World, ok: bool)
    ensures w'.files == w.files && w'.config == w.config
    ensures w'.ran == w.ran + InstallCommands(components)
    ensures ok <==> AllSucceed(env, |w.ran|, components)
  {
    if components == [] {
      return w, true;
    }
    w' := w;
    ok := true;
    var i := 0;
    while i < |components|
      invariant 0 <= i <= |components|
      invariant w'.files == w.files && w'.config == w.config
      invariant w'.ran == w.ran + InstallCommands(components[..i])
      invariant ok <==> AllSucceed(env, |w.ran|, components[..i])
    {
      var r := Run(w', env, AddCommand(components[i]));
      BatchExtends(env, |w.ran|, components, i);
      w' := r.0;
      if !r.1 {
        ok := false;
      }
      i := i + 1;
    }
    assert components[..i] == components;
  }

  /** One more attempt extends the commands by its own and the conjunction by its outcome. */
  lemma {:induction false} BatchExtends(env: Oracle, start: nat, components: seq<string>, i: nat)
    requires i < |components|
    ensures InstallCommands(components[..i + 1]) == InstallCommands(components[..i]) + [AddCommand(components[i])]
    ensures AllSucceed(env, start, components[..i + 1])
            <==> AllSucceed(env, start, components[..i]) && env.succeeds(start + i, AddCommand(components[i]))
  {
    assert components[..i + 1] == components[..i] + [components[i]];
  }

  /** An empty batch succeeds without issuing a command. */
  lemma {:induction false} EmptyBatch(env: Oracle, start: nat)
    ensures InstallCommands([]) == [] && AllSucceed(env, start, [])
  {
  }

  /** One failed attempt anywhere makes the batch fail, whatever the others do. */
  lemma {:induction false} OneFailureFailsBatch(env: Oracle, start: nat, components: seq<string>, k: nat)
    requires k < |components| && !env.succeeds(start + k, AddCommand(components[k]))
    ensures !AllSucceed(env, start, components)
  {
  }

  // ---------------------------------------------------------------------------
  // add_components_during_init

  /** Where the components installed during `init` come from. */
  datatype Source = FromFlag(recipe: string) | FromConfig(recipe: string) | FromPrompt

  /** The recipe flag is given, non-empty and a known recipe. */
  predicate FlagApplies(recipe: Option<string>, recipes: map<string, seq<string>>) {
    recipe.Some? && recipe.value != "" && recipe.value in recipes
  }

  /**
   * The precedence of `add_components_during_init`: a known recipe flag,
   * then a truthy `default_recipe` that names a known recipe, then the
   * prompt.  Reading `default_recipe` raises when the configuration is not
   * an object, and looking up a list or object value in the recipe table
   * raises because it is unhashable.
   */
  function Selection(recipe: Option<string>, config: Json, recipes: map<string, seq<string>>): (r: Outcome<Source>)
    ensures FlagApplies(recipe, recipes) ==> r == Returned(FromFlag(recipe.value))
    ensures forall n :: r == Returned(FromFlag(n)) ==> FlagApplies(recipe, recipes) && n == recipe.value
    ensures forall n :: r == Returned(FromConfig(n)) <==>
              && !FlagApplies(recipe, recipes)
              && config.JObj? && "default_recipe" in config.fields
              && config.fields["default_recipe"] == JStr(n) && n != "" && n in recipes
    ensures r.Raised? <==>
              && !FlagApplies(recipe, recipes)
              && (!config.JObj?
                  || ("default_recipe" in config.fields && Truthy(config.fields["default_recipe"])
                      && (config.fields["default_recipe"].JArr? || config.fields["default_recipe"].JObj?)))
  {
    if FlagApplies(recipe, recipes) then Returned(FromFlag(recipe.value))
    else
      match Get(config, "default_recipe", JNull)
      case Raised => Raised
      case Returned(d) =>
        if !Truthy(d) then Returned(FromPrompt)
        else if d.JArr? || d.JObj? then Raised
        else if d.JStr? && d.s in recipes then Returned(FromConfig(d.s))
        else Returned(FromPrompt)
  }

  /** An unknown recipe flag is as good as none: the choice falls through to the next rule. */
  lemma {:induction false} UnknownFlagFallsThrough(name: string, config: Json, recipes: map<string, seq<string>>)
    requires name !in recipes
    ensures Selection(Some(name), config, recipes) == Selection(None, config, recipes)
  {
  }

  /** The prompt is used only when neither the flag nor the configuration names a known recipe. */
  lemma {:induction false} PromptIsLastResort(recipe: Option<string>, config: Json, recipes: map<string, seq<string>>)
    requires Selection(recipe, config, recipes) == Returned(FromPrompt)
    ensures !FlagApplies(recipe, recipes) && config.JObj?
    ensures "default_recipe" in config.fields && config.fields["default_recipe"].JStr? ==>
              config.fields["default_recipe"].s !in recipes || config.fields["default_recipe"].s == ""
  {
  }

  /** The list `add_components_during_init` hands to the installer, or the exception on the way there. */
  function ChosenComponents(recipe: Option<string>, config: Json, recipes: map<string, seq<string>>, env: Oracle)
    : (r: Outcome<seq<string>>)
    ensures FlagApplies(recipe, recipes) ==> r == Returned(recipes[recipe.value])
    ensures forall n :: Selection(recipe, config, recipes) == Returned(FromConfig(n)) ==> r == Returned(recipes[n])
    ensures Selection(recipe, config, recipes) == Returned(FromPrompt) ==> r == PromptAnswer(config, env)
    ensures Selection(recipe, config, recipes).Raised? ==> r.Raised?
  {
    match Selection(recipe, config, recipes)
    case Raised => Raised
    case Returned(FromFlag(n)) => Returned(recipes[n])
    case Returned(FromConfig(n)) => Returned(recipes[n])
    case Returned(FromPrompt) => PromptAnswer(config, env)
  }

  /**
   * What `add_components_during_init` leaves: the files untouched, the
   * configuration file created if missing; an exception exactly when
   * choosing raises, and then no command; otherwise one `shadcn add` per
   * chosen component and success exactly when all of them succeed.
   */
  predicate ComponentsInstalledDuringInit(w: World, env: Oracle, recipe: Option<string>,
                                          recipes: map<string, seq<string>>, w': World, ok: Outcome<bool>) {
    var chosen := ChosenComponents(recipe, GetConfig(w.config).1, recipes, env);
    && w'.files == w.files && w'.config == EnsureConfigExists(w.config)
    && (ok.Raised? <==> chosen.Raised?)
    && (chosen.Raised? ==> w'.ran == w.ran)
    && (chosen.Returned? ==>
          w'.ran == w.ran + InstallCommands(chosen.value)
          && (ok.value <==> AllSucceed(env, |w.ran|, chosen.value)))
  }

  /**
   * `add_components_during_init`: load the configuration, choose the
   * components and install them all; an exception on the way escapes.
   */
  method AddComponentsDuringInit(w: World, env: Oracle, recipe: Option<string>, recipes: map<string, seq<string>>)
    returns (w': World, ok: Outcome<bool>)
    ensures ComponentsInstalledDuringInit(w, env, recipe, recipes, w', ok)
  {
    var loaded := GetConfig(w.config);
    var w1 := w.(config := loaded.0);
    var selected: seq<string>;
    match Selection(recipe, loaded.1, recipes) {
    case Raised =>
      return w1, Raised;
    case Returned(FromFlag(n)) =>
      selected := recipes[n];
    case Returned(FromConfig(n)) =>
      selected := recipes[n];
    case Returned(FromPrompt) =>
      // `_prompt_for_components` loads the configuration once more.
      var again := GetConfig(w1.config);
      assert again.1 == loaded.1;
      match PromptAnswer(again.1, env) {
      case Raised =>
        return w1.(config := again.0), Raised;
      case Returned(names) =>
        selected := names;
        w1 := w1.(config := again.0);
      }
    }
    var done: bool;
    w', done := InstallComponents(w1, env, selected);
    ok := Returned(done);
  }
}
