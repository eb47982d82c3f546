/**
 * src/shacnify/core/templates.py: which content globs go into
 * tailwind.config.js and which fields go into components.json, for a
 * framework tag.  The fixed template texts themselves are not modelled.
 */
module Templates {
  import opened Host

  const CraGlobs: seq<string> := ["./src/**/*.{js,jsx,ts,tsx}"]
  const ViteGlobs: seq<string> := ["./index.html", "./src/**/*.{js,ts,jsx,tsx}"]
  const NextGlobs: seq<string> :=
    ["./pages/**/*.{js,ts,jsx,tsx}", "./components/**/*.{js,ts,jsx,tsx}", "./app/**/*.{js,ts,jsx,tsx}"]

  /** The `content` globs of `get_tailwind_config_content`; an unknown tag gets the cra ones. */
  function ContentGlobs(tag: string): (r: seq<string>)
    ensures tag != "vite" && tag != "nextjs" ==> r == CraGlobs
    ensures tag == "vite" ==> "./index.html" in r && "./src/**/*.{js,ts,jsx,tsx}" in r
    ensures tag == "nextjs" ==> "./pages/**/*.{js,ts,jsx,tsx}" in r && "./components/**/*.{js,ts,jsx,tsx}" in r
                                && "./app/**/*.{js,ts,jsx,tsx}" in r
    ensures "./index.html" in r <==> tag == "vite"
  {
    var paths := map["cra" := CraGlobs, "vite" := ViteGlobs, "nextjs" := NextGlobs];
    if tag in paths then paths[tag] else paths["cra"]
  }

  /** The file `get_tailwind_config_content` writes. */
  function TailwindConfigContent(tag: string): (b: Body)
    ensures Decoded(b) == None
    ensures b.Generated? && b.template.TailwindConfigJs?
    ensures "./index.html" in b.template.content <==> tag == "vite"
    ensures tag == "nextjs" ==> "./app/**/*.{js,ts,jsx,tsx}" in b.template.content
  {
    Generated(TailwindConfigJs(ContentGlobs(tag)))
  }

  /** The record `get_components_json_content` serialises into components.json. */
  function ComponentsJson(tag: string): (c: ComponentsConfig)
    ensures c.tailwind.css == "app/globals.css" <==> tag == "nextjs"
    ensures c.tailwind.css == "src/index.css" <==> tag != "nextjs"
    ensures c.rsc <==> tag == "nextjs"
    ensures c.tsx
    ensures c.tailwind.config == "tailwind.config.js" && c.tailwind.cssVariables
    ensures c.aliases == AliasSection("@/components", "@/lib/utils")
  {
    var cssFile := if tag == "nextjs" then "app/globals.css" else "src/index.css";
    var isAppDir := tag == "nextjs";
    ComponentsConfig(
      "https://ui.shadcn.com/schema.json",
      "default",
      isAppDir,
      true,
      TailwindSection("tailwind.config.js", cssFile, "slate", true),
      AliasSection("@/components", "@/lib/utils"))
  }
}
