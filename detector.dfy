/**
 * src/shacnify/core/detector.py: classify the current directory by its
 * marker files, first match wins.  A package.json that cannot be read as a
 * JSON object makes `detect_framework` raise; the model says so with
 * `Failed` instead of treating it as missing evidence.
 */
module Detector {
  import opened Json
  import opened Host

  /** What `detect_framework` ends with: a tag, `None`, or an escaping exception. */
  datatype Detection = Found(framework: Framework) | NotReact | Failed

  const EmptyDict: Json := JObj(map[])

  /** `"react-scripts" in content.get(key, {})`, which raises when `content` is not a dict. */
  function ListsReactScripts(content: Json, key: string): (r: Outcome<bool>)
    ensures r.Raised? <==>
              !content.JObj?
              || (key in content.fields
                  && !(content.fields[key].JObj? || content.fields[key].JArr? || content.fields[key].JStr?))
    ensures content.JObj? && key !in content.fields ==> r == Returned(false)
    ensures content.JObj? && key in content.fields && content.fields[key].JObj? ==>
              r == Returned("react-scripts" in content.fields[key].fields)
    ensures content.JObj? && key in content.fields && content.fields[key].JArr? ==>
              r == Returned(JStr("react-scripts") in content.fields[key].items)
  {
    match Get(content, key, EmptyDict)
    case Returned(deps) => In("react-scripts", deps)
    case Raised => Raised
  }

  /** The package.json test: `dependencies` first, `devDependencies` only if that said no. */
  function ManifestVerdict(manifest: Node): (r: Detection)
    ensures r != Found(Vite) && r != Found(NextJs)
    ensures r == Found(Cra) <==>
              manifest.File? && manifest.body.Doc? && manifest.body.value.JObj?
              && (ListsReactScripts(manifest.body.value, "dependencies") == Returned(true)
                  || (ListsReactScripts(manifest.body.value, "dependencies") == Returned(false)
                      && ListsReactScripts(manifest.body.value, "devDependencies") == Returned(true)))
    ensures (manifest.File? && manifest.body.Doc? && manifest.body.value.JObj?
             && "dependencies" !in manifest.body.value.fields && "devDependencies" !in manifest.body.value.fields)
            ==> r == NotReact
    ensures r == Failed <==>
              || manifest.Dir? || !manifest.body.Doc?
              || ListsReactScripts(manifest.body.value, "dependencies").Raised?
              || (ListsReactScripts(manifest.body.value, "dependencies") == Returned(false)
                  && ListsReactScripts(manifest.body.value, "devDependencies").Raised?)
  {
    if manifest.Dir? || !manifest.body.Doc? then Failed
    else
      var content := manifest.body.value;
      match ListsReactScripts(content, "dependencies")
      case Raised => Failed
      case Returned(true) => Found(Cra)
      case Returned(false) =>
        match ListsReactScripts(content, "devDependencies")
        case Raised => Failed
        case Returned(b) => if b then Found(Cra) else NotReact
  }

  /** `detect_framework` over the entries of the current directory. */
  function Detect(fs: Fs): (r: Detection)
    ensures "next.config.js" in fs ==> r == Found(NextJs)
    ensures r == Found(NextJs) <==> "next.config.js" in fs
    ensures r == Found(Vite) <==> "next.config.js" !in fs && ("vite.config.js" in fs || "vite.config.ts" in fs)
    ensures r == Found(Cra) ==> "next.config.js" !in fs && "vite.config.js" !in fs && "vite.config.ts" !in fs
                                && "package.json" in fs
    ensures r == Found(Cra) <==>
              "next.config.js" !in fs && "vite.config.js" !in fs && "vite.config.ts" !in fs
              && "package.json" in fs && ManifestVerdict(fs["package.json"]) == Found(Cra)
    ensures r.Failed? ==> "package.json" in fs
    ensures "next.config.js" !in fs && "vite.config.js" !in fs && "vite.config.ts" !in fs && "package.json" in fs
            ==> r == ManifestVerdict(fs["package.json"])
    ensures ("next.config.js" !in fs && "vite.config.js" !in fs && "vite.config.ts" !in fs
             && "package.json" !in fs) ==> r == NotReact
  {
    if "next.config.js" in fs then Found(NextJs)
    else if "vite.config.js" in fs || "vite.config.ts" in fs then Found(Vite)
    else if "package.json" in fs then ManifestVerdict(fs["package.json"])
    else NotReact
  }

  /** A marker-free project whose package.json lists react-scripts under either key is cra. */
  lemma {:induction false} ReactScriptsMeansCra(fs: Fs, key: string, deps: map<string, Json>)
    requires "next.config.js" !in fs && "vite.config.js" !in fs && "vite.config.ts" !in fs
    requires key == "dependencies" || key == "devDependencies"
    requires "package.json" in fs && fs["package.json"].File? && fs["package.json"].body.Doc?
    requires fs["package.json"].body.value.JObj?
    requires var m := fs["package.json"].body.value.fields;
             (key in m && m[key] == JObj(deps)) && "react-scripts" in deps
             && (key == "devDependencies" ==> "dependencies" !in m || m["dependencies"].JObj?)
    ensures Detect(fs) == Found(Cra)
  {
    var content := fs["package.json"].body.value;
    if key == "dependencies" {
      assert ListsReactScripts(content, "dependencies") == Returned(true);
    } else {
      assert ListsReactScripts(content, "devDependencies") == Returned(true);
      assert ListsReactScripts(content, "dependencies").Returned?;
    }
  }
}
