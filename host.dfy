/**
 * The machine the tool runs on, reduced to what the core observes: the
 * current directory as a map from relative path to entry, the user's
 * configuration file, and the log of shell commands issued so far.
 * `run_command` and `write_file` (src/shacnify/utils.py) are oracles: the
 * model does not know whether a command or a write succeeds, it is told.
 */
module Host {
  import opened Json

  type Path = string
  type Command = string

  /** Text produced by one of the fixed templates; the text itself is not modelled. */
  datatype Template =
    | TailwindConfigJs(content: seq<string>)
    | ComponentsJsonFile(config: ComponentsConfig)
    | AppTsx
    | MainTsx
    | MainLayoutTsx
    | HomePageTsx

  /** The fields `get_components_json_content` puts into components.json. */
  datatype ComponentsConfig = ComponentsConfig(
    schema: string,
    style: string,
    rsc: bool,
    tsx: bool,
    tailwind: TailwindSection,
    aliases: AliasSection)

  datatype TailwindSection = TailwindSection(config: string, css: string, baseColor: string, cssVariables: bool)

  datatype AliasSection = AliasSection(components: string, utils: string)

  /**
   * The content of a file: text that `json.loads` accepts, as the value it
   * decodes to; any other text; or the output of a template.
   */
  datatype Body =
    | Doc(value: Json)
    | Text(text: string)
    | Generated(template: Template)

  datatype Node = File(body: Body) | Dir

  type Fs = map<Path, Node>

  /** The user's configuration file, which lives outside the project directory. */
  datatype ConfigFile = Absent | Present(body: Body)

  /** One choice shown by the multi-select prompt. */
  datatype Choice = Choice(name: string, enabled: bool)

  /** What the multi-select prompt gives back: the ticked names, or an interrupt. */
  datatype Answer = Picked(names: seq<string>) | Interrupted

  datatype Framework = Vite | NextJs | Cra {
    /** The tag the Python code passes around for this framework. */
    function Tag(): string {
      match this
      case Vite => "vite"
      case NextJs => "nextjs"
      case Cra => "cra"
    }
  }

  /**
   * Everything the core learns from outside: whether a write to a path
   * succeeds, whether the n-th command issued succeeds, what the user ticks
   * in the component prompt, which template the user selects, whether the
   * project generator leaves a folder named after the project, and what it
   * leaves in that folder.
   */
  datatype Oracle = Oracle(
    canWrite: Path -> bool,
    succeeds: (nat, Command) -> bool,
    checkbox: seq<Choice> -> Answer,
    template: Framework,
    madeFolder: bool,
    created: Fs)

  datatype World = World(files: Fs, config: ConfigFile, ran: seq<Command>)

  /** The directories `mkdir(parents=True)` creates above `p`. */
  function ParentDirs(p: Path): set<Path> {
    set i | 0 < i < |p| && p[i] == '/' :: p[..i]
  }

  /** `mkdir(parents=True, exist_ok=True)` for each of `dirs`: existing entries are left alone. */
  function MkDirs(fs: Fs, dirs: set<Path>): (r: Fs)
    ensures forall q :: q in dirs ==> q in r
    ensures forall q :: q in fs ==> q in r && r[q] == fs[q]
    ensures forall q :: q in r && q !in fs ==> q in dirs && r[q] == Dir
  {
    fs + map d | d in dirs && d !in fs :: Dir
  }

  /** `write_file(p, b)` whose outcome is `ok`: on success the parents exist and `p` holds `b`. */
  function WriteFile(fs: Fs, p: Path, b: Body, ok: bool): (r: Fs)
    ensures ok ==> p in r && r[p] == File(b)
    ensures !ok ==> r == fs
    ensures forall q :: q in fs && q != p ==> q in r && r[q] == fs[q]
    ensures forall q :: q in r && q !in fs && q != p ==> r[q] == Dir && q in ParentDirs(p)
  {
    if ok then MkDirs(fs, ParentDirs(p))[p := File(b)] else fs
  }

  /** `run_command(cmd)`: the command is logged and its outcome comes from the oracle. */
  function Run(w: World, env: Oracle, cmd: Command): (r: (World, bool))
    ensures r.0.files == w.files && r.0.config == w.config
    ensures |r.0.ran| == |w.ran| + 1 && r.0.ran[..|w.ran|] == w.ran && r.0.ran[|w.ran|] == cmd
    ensures r.1 == env.succeeds(|w.ran|, cmd)
  {
    (w.(ran := w.ran + [cmd]), env.succeeds(|w.ran|, cmd))
  }

  /** The value `json.loads` produces for a body, if it parses. */
  function Decoded(b: Body): Option<Json> {
    if b.Doc? then Some(b.value) else None
  }

  datatype Option<T> = None | Some(value: T)
}
