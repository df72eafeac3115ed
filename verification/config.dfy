/**
 * Project configuration (ezagent/config.py): the comma-separated list
 * coercion, the project validation rules, the runtime file paths, the
 * upward search for `agents.yml`, and the top-level key check of
 * `load_config`.
 *
 * The filesystem is an oracle: `files` is the set of paths that are
 * regular files; directories are component sequences from the root. The
 * daemon reads `provider`, `model` and `schedule` from agent entries and
 * `provider`, `model` from the project although the source's records do
 * not declare them; they are fields here, with "" meaning unset.
 */
module Config {
  import opened Wrappers
  import opened Strings
  import opened Json
  import opened OrderedMap
  import opened AgentGraph

  // ----- split_csv -----

  /** A `tools`/`skills` value as YAML hands it over: missing, a string, or a list. */
  datatype ListField = Absent | Text(text: string) | Items(items: seq<string>)

  /** Strips every piece and drops the blank ones, keeping order. */
  function NonBlank(pieces: seq<string>): seq<string> {
    if |pieces| == 0 then []
    else (if Strip(pieces[0]) != "" then [Strip(pieces[0])] else []) + NonBlank(pieces[1..])
  }

  /** `AgentConfig.split_csv`. */
  function SplitCsv(v: ListField): seq<string> {
    match v
    case Absent => []
    case Text(s) => NonBlank(Split(s, ','))
    case Items(items) => items
  }

  /** A well-formed list item: non-empty, no surrounding whitespace, no comma. */
  predicate CsvItem(s: string) {
    s != "" && IsStripped(s) && ',' !in s
  }

  lemma {:induction false} NonBlankItems(pieces: seq<string>)
    requires forall k :: 0 <= k < |pieces| ==> ',' !in pieces[k]
    ensures forall k :: 0 <= k < |NonBlank(pieces)| ==> CsvItem(NonBlank(pieces)[k])
    decreases |pieces|
  {
    if |pieces| > 0 {
      NonBlankItems(pieces[1..]);
      var s := Strip(pieces[0]);
      StripIdempotent(pieces[0]);
      assert forall x :: x in s ==> x in pieces[0];
    }
  }

  /** Every item a comma-separated string yields is a well-formed list item. */
  lemma SplitCsvItems(s: string)
    ensures forall k :: 0 <= k < |SplitCsv(Text(s))| ==> CsvItem(SplitCsv(Text(s))[k])
  {
    SplitPiecesLackSeparator(s, ',');
    NonBlankItems(Split(s, ','));
  }

  lemma {:induction false} NonBlankOfItems(parts: seq<string>)
    requires forall k :: 0 <= k < |parts| ==> CsvItem(parts[k])
    ensures NonBlank(parts) == parts
    decreases |parts|
  {
    if |parts| > 0 {
      StripOfStripped(parts[0]);
      NonBlankOfItems(parts[1..]);
    }
  }

  /** Writing well-formed items comma-separated and reading them back gives the same list. */
  lemma SplitCsvJoin(parts: seq<string>)
    requires |parts| >= 1
    requires forall k :: 0 <= k < |parts| ==> CsvItem(parts[k])
    ensures SplitCsv(Text(Join(parts, ","))) == parts
  {
    SplitJoin(parts, ',');
    NonBlankOfItems(parts);
  }

  // ----- configuration records -----

  datatype ScheduleEntry = ScheduleEntry(cron: string, message: string)

  datatype AgentConfig = AgentConfig(
    tools: seq<string>,
    skills: seq<string>,
    description: string,
    provider: string,
    model: string,
    schedule: seq<ScheduleEntry>)

  datatype ProjectConfig = ProjectConfig(
    agents: seq<Entry<string, AgentConfig>>,
    projectDir: string,
    provider: string,
    model: string)

  function SkillPath(projectDir: string, skill: string): string {
    projectDir + "/skills/" + skill + ".md"
  }

  function ToolMainPath(projectDir: string, tool: string): string {
    projectDir + "/tools/" + tool + "/main.py"
  }

  // ----- validate_project -----

  predicate SkillsExist(projectDir: string, skills: seq<string>, files: set<string>) {
    forall k :: 0 <= k < |skills| ==> SkillPath(projectDir, skills[k]) in files
  }

  predicate ToolsResolve(projectDir: string, tools: seq<string>, names: seq<string>, files: set<string>) {
    forall k :: 0 <= k < |tools| ==> tools[k] in names || ToolMainPath(projectDir, tools[k]) in files
  }

  /** The per-agent rules: skill files exist, tools are agents or tool directories, no self-reference. */
  predicate AgentValid(projectDir: string, name: string, a: AgentConfig, names: seq<string>, files: set<string>) {
    SkillsExist(projectDir, a.skills, files) && ToolsResolve(projectDir, a.tools, names, files) && name !in a.tools
  }

  function SkillError(name: string, path: string): string {
    "Agent '" + name + "': skill file not found: " + path
  }

  function ToolError(name: string, tool: string, path: string): string {
    "Agent '" + name + "': tool '" + tool + "' is neither an agent nor a tool directory with main.py at " + path
  }

  function SelfReferenceError(name: string): string {
    "Agent '" + name + "' lists itself as a tool"
  }

  function CycleError(root: string): string {
    "Circular agent reference detected involving '" + root + "'"
  }

  /** The first listed skill without a file. */
  function MissingSkill(projectDir: string, skills: seq<string>, files: set<string>): (r: Option<string>)
    ensures r.None? <==> SkillsExist(projectDir, skills, files)
    ensures r.Some? ==> r.value in skills && SkillPath(projectDir, r.value) !in files
  {
    if |skills| == 0 then None
    else if SkillPath(projectDir, skills[0]) !in files then Some(skills[0])
    else
      var r := MissingSkill(projectDir, skills[1..], files);
      assert forall k :: 1 <= k < |skills| ==> skills[k] == skills[1..][k - 1];
      r
  }

  /** The first listed tool that is neither an agent nor a tool directory. */
  function UnresolvedTool(projectDir: string, tools: seq<string>, names: seq<string>, files: set<string>): (r: Option<string>)
    ensures r.None? <==> ToolsResolve(projectDir, tools, names, files)
    ensures r.Some? ==> r.value in tools && r.value !in names && ToolMainPath(projectDir, r.value) !in files
  {
    if |tools| == 0 then None
    else if tools[0] !in names && ToolMainPath(projectDir, tools[0]) !in files then Some(tools[0])
    else
      var r := UnresolvedTool(projectDir, tools[1..], names, files);
      assert forall k :: 1 <= k < |tools| ==> tools[k] == tools[1..][k - 1];
      r
  }

  /** The first rule an agent breaks, checked in the source's order. */
  function CheckAgent(projectDir: string, name: string, a: AgentConfig, names: seq<string>, files: set<string>): (r: Option<string>)
    ensures r.None? <==> AgentValid(projectDir, name, a, names, files)
  {
    match MissingSkill(projectDir, a.skills, files)
    case Some(skill) => Some(SkillError(name, SkillPath(projectDir, skill)))
    case None =>
      match UnresolvedTool(projectDir, a.tools, names, files)
      case Some(tool) => Some(ToolError(name, tool, ToolMainPath(projectDir, tool)))
      case None => if name in a.tools then Some(SelfReferenceError(name)) else None
  }

  function CheckAgents(projectDir: string, agents: seq<Entry<string, AgentConfig>>, names: seq<string>, files: set<string>): (r: Option<string>)
    ensures r.None? <==> forall k :: 0 <= k < |agents| ==> AgentValid(projectDir, agents[k].key, agents[k].value, names, files)
  {
    if |agents| == 0 then None
    else
      match CheckAgent(projectDir, agents[0].key, agents[0].value, names, files)
      case Some(e) => Some(e)
      case None =>
        var r := CheckAgents(projectDir, agents[1..], names, files);
        assert forall k :: 1 <= k < |agents| ==> agents[k] == agents[1..][k - 1];
        r
  }

  /** The agent-reference graph: every agent with its configured tool names. */
  function ReferenceGraph(agents: seq<Entry<string, AgentConfig>>): (g: Graph)
    ensures g.Keys == Elems(Keys(agents))
  {
    var ks := Keys(agents);
    map k | k in Elems(ks) :: Find(agents, k).value.tools
  }

  /**
   * `validate_project`. `order` is the iteration order of the set of agent
   * names, which Python leaves unspecified.
   */
  function Validate(cfg: ProjectConfig, files: set<string>, order: seq<string>): (r: Result<ProjectConfig, string>)
    requires UniqueKeys(cfg.agents)
    requires Elems(order) == Elems(Keys(cfg.agents))
    ensures r.Success? ==> r.value == cfg
    ensures r.Success? <==>
      (forall k :: 0 <= k < |cfg.agents| ==> AgentValid(cfg.projectDir, cfg.agents[k].key, cfg.agents[k].value, Keys(cfg.agents), files))
      && !HasCycle(ReferenceGraph(cfg.agents))
  {
    var names := Keys(cfg.agents);
    match CheckAgents(cfg.projectDir, cfg.agents, names, files)
    case Some(e) => Failure(e)
    case None =>
      var g := ReferenceGraph(cfg.agents);
      FindCycleRootDecides(g, order);
      match FindCycleRoot(g, order, 0, {})
      case Some(root) => Failure(CycleError(root))
      case None => Success(cfg)
  }

  /** A configuration with a self-referencing agent is always rejected, in whatever order. */
  lemma SelfReferenceRejected(cfg: ProjectConfig, files: set<string>, order: seq<string>, k: nat)
    requires UniqueKeys(cfg.agents)
    requires Elems(order) == Elems(Keys(cfg.agents))
    requires k < |cfg.agents| && cfg.agents[k].key in cfg.agents[k].value.tools
    ensures Validate(cfg, files, order).Failure?
  {
  }

  /** Which check fails first does not depend on the root order; only the cycle message can. */
  lemma ValidateOrderIndependent(cfg: ProjectConfig, files: set<string>, o1: seq<string>, o2: seq<string>)
    requires UniqueKeys(cfg.agents)
    requires Elems(o1) == Elems(Keys(cfg.agents)) && Elems(o2) == Elems(Keys(cfg.agents))
    ensures Validate(cfg, files, o1).Success? <==> Validate(cfg, files, o2).Success?
  {
  }

  // ----- runtime paths -----

  /** The part shared by the socket and pid paths: the first 12 hex digits of the project digest. */
  function RuntimeStem(digest: string): string {
    "/tmp/ezagent_" + Take(digest, 12)
  }

  /** `socket_path`; `digest` is the MD5 hex digest of the resolved project directory. */
  function SocketPath(digest: string): (r: string)
    ensures |r| > |RuntimeStem(digest)| && r[..|RuntimeStem(digest)|] == RuntimeStem(digest)
  {
    RuntimeStem(digest) + ".sock"
  }

  /** `pid_path`. */
  function PidPath(digest: string): (r: string)
    ensures |r| > |RuntimeStem(digest)| && r[..|RuntimeStem(digest)|] == RuntimeStem(digest)
  {
    RuntimeStem(digest) + ".pid"
  }

  /** The two paths share their stem and differ only in the suffix. */
  lemma RuntimePathsDiffer(digest: string)
    ensures SocketPath(digest) != PidPath(digest)
    ensures SocketPath(digest)[|RuntimeStem(digest)|..] == ".sock"
    ensures PidPath(digest)[|RuntimeStem(digest)|..] == ".pid"
  {
    var n := |RuntimeStem(digest)|;
    assert SocketPath(digest)[n + 1] == 's' && PidPath(digest)[n + 1] == 'p';
  }

  /** Two projects get the same paths exactly when their digests agree on the first 12 characters. */
  lemma RuntimePathsIdentify(d1: string, d2: string)
    requires |d1| >= 12 && |d2| >= 12
    ensures SocketPath(d1) == SocketPath(d2) <==> d1[..12] == d2[..12]
    ensures PidPath(d1) == PidPath(d2) <==> d1[..12] == d2[..12]
  {
    var p := "/tmp/ezagent_";
    if SocketPath(d1) == SocketPath(d2) {
      assert d1[..12] == SocketPath(d1)[|p|..|p| + 12];
      assert d2[..12] == SocketPath(d2)[|p|..|p| + 12];
    }
    if PidPath(d1) == PidPath(d2) {
      assert d1[..12] == PidPath(d1)[|p|..|p| + 12];
      assert d2[..12] == PidPath(d2)[|p|..|p| + 12];
    }
  }

  // ----- find_project_dir and load_config -----

  /**
   * `find_project_dir`: the nearest ancestor of `cwd`, itself included,
   * among the directories holding an `agents.yml` (`marked`). The root
   * is `[]`, its own parent.
   */
  function FindProjectDir(cwd: seq<string>, marked: set<seq<string>>): (r: Option<seq<string>>)
    ensures r.Some? ==> |r.value| <= |cwd| && r.value == cwd[..|r.value|] && r.value in marked
    ensures r.Some? ==> forall n :: |r.value| < n <= |cwd| ==> cwd[..n] !in marked
    ensures r.None? ==> forall n :: 0 <= n <= |cwd| ==> cwd[..n] !in marked
    decreases |cwd|
  {
    if cwd in marked then
      assert cwd[..|cwd|] == cwd;
      Some(cwd)
    else if cwd == [] then None
    else
      var parent := cwd[..|cwd| - 1];
      var r := FindProjectDir(parent, marked);
      assert forall n :: 0 <= n <= |parent| ==> parent[..n] == cwd[..n];
      assert cwd[..|cwd|] == cwd;
      r
  }

  datatype LoadError =
    | NoProject(message: string)
    | FileMissing(path: string)
    | Invalid(message: string)
    | NotAMapping(message: string)

  const NoProjectMessage := "No agents.yml found in current directory or any parent directory."
  const MissingAgentsKey := "agents.yml must contain an 'agents' key."

  /**
   * `if not raw or "agents" not in raw` followed by `raw["agents"]`: a
   * falsy document or one without the key is rejected with the message;
   * a truthy non-mapping either fails the `in` test or cannot be
   * subscripted by a string, and Python raises a TypeError.
   */
  function AgentsSection(raw: Json): (r: Result<Json, LoadError>)
    ensures r.Success? <==> raw.JObj? && Lookup(raw.fields, "agents").Some?
    ensures r.Success? ==> r.value == Lookup(raw.fields, "agents").value
    ensures !Truthy(raw) ==> r == Failure(Invalid(MissingAgentsKey))
    ensures raw.JObj? && Lookup(raw.fields, "agents").None? ==> r == Failure(Invalid(MissingAgentsKey))
  {
    if !Truthy(raw) then Failure(Invalid(MissingAgentsKey))
    else match raw
      case JObj(fields) =>
        (match Lookup(fields, "agents")
         case None => Failure(Invalid(MissingAgentsKey))
         case Some(v) => Success(v))
      case JArr(items) =>
        if JStr("agents") in items then Failure(NotAMapping("list indices must be integers or slices, not str"))
        else Failure(Invalid(MissingAgentsKey))
      case JStr(s) =>
        if Contains(s, "agents") then Failure(NotAMapping("string indices must be integers"))
        else Failure(Invalid(MissingAgentsKey))
      case JInt(_) => Failure(NotAMapping("argument of type 'int' is not iterable"))
      case JBool(_) => Failure(NotAMapping("argument of type 'bool' is not iterable"))
      case JNull => Failure(Invalid(MissingAgentsKey))
  }

  function PathString(dir: seq<string>): string {
    "/" + Join(dir, "/")
  }

  /**
   * `load_config`: locates the project (unless given), reads its
   * `agents.yml` (`documents` maps each directory holding one to its parsed
   * content) and returns the directory with the `agents` section.
   */
  function LoadConfig(given: Option<seq<string>>, cwd: seq<string>, documents: map<seq<string>, Json>): (r: Result<(seq<string>, Json), LoadError>)
    ensures given.None? && FindProjectDir(cwd, documents.Keys).None? ==> r == Failure(NoProject(NoProjectMessage))
    ensures r.Success? ==> r.value.0 in documents && AgentsSection(documents[r.value.0]) == Success(r.value.1)
    ensures r.Success? && given.None? ==> r.value.0 == FindProjectDir(cwd, documents.Keys).value
    ensures r.Success? && given.Some? ==> r.value.0 == given.value
  {
    var dir := if given.Some? then given else FindProjectDir(cwd, documents.Keys);
    if dir.None? then Failure(NoProject(NoProjectMessage))
    else if dir.value !in documents then Failure(FileMissing(PathString(dir.value) + "/agents.yml"))
    else
      match AgentsSection(documents[dir.value])
      case Failure(e) => Failure(e)
      case Success(section) => Success((dir.value, section))
  }
}
