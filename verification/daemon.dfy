/**
 * The daemon's decision logic (ezagent/daemon.py): agent start-up with the
 * provider cache, the schedule built from the agents' cron entries, one
 * wake-up of the scheduler, a scheduled run, and delegation between agents
 * (`Agent.Delegate`).
 *
 * Oracles: `env` for the API keys; `urlPath` for URL parsing; `skillFiles`
 * and `listing` for what agents read while starting; `cronValid` and
 * `cronNext` for croniter (`cronNext(expr, t)` is the first firing time
 * after `t`); times are whole seconds. Sockets, tasks and logging are not
 * modelled.
 */
module Daemon {
  import opened Wrappers
  import opened OrderedMap
  import opened ToolRouter
  import opened Config
  import opened External
  import Providers
  import Agent

  // ----- provider cache -----

  /** The `(provider_name, model)` pair providers are cached under. */
  datatype ProviderKey = ProviderKey(name: string, model: string)

  /** Python's `value or fallback` on strings. */
  function Or(value: string, fallback: string): (r: string)
    ensures r == value || r == fallback
    ensures r == "" ==> value == "" && fallback == ""
  {
    if value != "" then value else fallback
  }

  /** The agent's provider and model, each falling back to the project's. */
  function KeyOf(a: AgentConfig, cfg: ProjectConfig): ProviderKey {
    ProviderKey(Or(a.provider, cfg.provider), Or(a.model, cfg.model))
  }

  /** Every cached provider is the one `create_provider` builds for its key. */
  ghost predicate CacheSound(cache: seq<Entry<ProviderKey, Providers.Provider>>, env: map<string, string>) {
    UniqueKeys(cache) &&
    forall k :: HasKey(cache, k) ==> Find(cache, k).Some? && Providers.CreateProvider(k.name, k.model, env) == Success(Find(cache, k).value)
  }

  /** The cached provider for `key`, creating (and caching) it on first use. */
  function CachedProvider(cache: seq<Entry<ProviderKey, Providers.Provider>>, key: ProviderKey, env: map<string, string>)
    : (r: Result<(Providers.Provider, seq<Entry<ProviderKey, Providers.Provider>>), string>)
    requires CacheSound(cache, env)
    ensures r.Failure? <==> !HasKey(cache, key) && Providers.CreateProvider(key.name, key.model, env).Failure?
    ensures r.Failure? ==> r.error == Providers.CreateProvider(key.name, key.model, env).error
    ensures r.Success? ==> CacheSound(r.value.1, env) && Find(r.value.1, key) == Some(r.value.0)
    ensures r.Success? ==> r.value.0 == Providers.CreateProvider(key.name, key.model, env).value
    ensures r.Success? && HasKey(cache, key) ==> r.value.1 == cache
    ensures r.Success? ==> forall k :: HasKey(r.value.1, k) <==> HasKey(cache, k) || k == key
    ensures r.Success? ==> forall k :: HasKey(cache, k) ==> Find(r.value.1, k) == Find(cache, k)
  {
    match Find(cache, key)
    case Some(p) => Success((p, cache))
    case None =>
      match Providers.CreateProvider(key.name, key.model, env)
      case Failure(e) => Failure(e)
      case Success(p) =>
        var cache' := Put(cache, key, p);
        assert forall k :: HasKey(cache', k) <==> Find(cache', k).Some?;
        Success((p, cache'))
  }

  // ----- agent start-up -----

  /** An agent's configuration once its git references have been resolved away. */
  function LocalOnly(a: AgentConfig): AgentConfig {
    a.(tools := LocalNames(a.tools), skills := LocalNames(a.skills))
  }

  /** Some agent among `todo` resolves to provider key `k`. */
  predicate KeyUsed(todo: seq<Entry<string, AgentConfig>>, cfg: ProjectConfig, k: ProviderKey) {
    exists i :: 0 <= i < |todo| && KeyOf(todo[i].value, cfg) == k
  }

  lemma KeyUsedCons(todo: seq<Entry<string, AgentConfig>>, cfg: ProjectConfig)
    requires |todo| > 0
    ensures forall k :: KeyUsed(todo, cfg, k) <==> k == KeyOf(todo[0].value, cfg) || KeyUsed(todo[1..], cfg, k)
  {
    forall k | KeyUsed(todo[1..], cfg, k) ensures KeyUsed(todo, cfg, k) {
      var i :| 0 <= i < |todo[1..]| && KeyOf(todo[1..][i].value, cfg) == k;
      assert todo[1..][i] == todo[i + 1];
    }
    forall k | KeyUsed(todo, cfg, k) && k != KeyOf(todo[0].value, cfg) ensures KeyUsed(todo[1..], cfg, k) {
      var i :| 0 <= i < |todo| && KeyOf(todo[i].value, cfg) == k;
      assert todo[1..][i - 1] == todo[i];
    }
  }

  /** One started agent: its (rewritten) configuration, state and provider. */
  datatype Hosted = Hosted(name: string, config: AgentConfig, state: Agent.AgentState, provider: Providers.Provider)

  /** The agents of `todo` in order, each with its local lists. */
  predicate StartedNames(todo: seq<Entry<string, AgentConfig>>, hosted: seq<Hosted>) {
    |hosted| == |todo| &&
    forall i :: 0 <= i < |todo| ==> hosted[i].name == todo[i].key && hosted[i].config == LocalOnly(todo[i].value)
  }

  /** `final` holds the keys of `cache` and those the agents of `todo` use, and nothing else. */
  ghost predicate CacheCovers(cfg: ProjectConfig, todo: seq<Entry<string, AgentConfig>>, cache: seq<Entry<ProviderKey, Providers.Provider>>, final: seq<Entry<ProviderKey, Providers.Provider>>) {
    forall k :: HasKey(final, k) <==> HasKey(cache, k) || KeyUsed(todo, cfg, k)
  }

  /** Nothing already cached is replaced. */
  ghost predicate CacheKeeps(cache: seq<Entry<ProviderKey, Providers.Provider>>, final: seq<Entry<ProviderKey, Providers.Provider>>) {
    forall k :: HasKey(cache, k) ==> Find(final, k) == Find(cache, k)
  }

  /** Every agent was handed the provider cached under its key. */
  predicate ProvidersFromCache(cfg: ProjectConfig, todo: seq<Entry<string, AgentConfig>>, hosted: seq<Hosted>, final: seq<Entry<ProviderKey, Providers.Provider>>)
    requires |hosted| == |todo|
  {
    forall i :: 0 <= i < |todo| ==> Find(final, KeyOf(todo[i].value, cfg)) == Some(hosted[i].provider)
  }

  ghost predicate Started(
    cfg: ProjectConfig, todo: seq<Entry<string, AgentConfig>>, env: map<string, string>,
    cache: seq<Entry<ProviderKey, Providers.Provider>>, hosted: seq<Hosted>, final: seq<Entry<ProviderKey, Providers.Provider>>)
  {
    && CacheSound(final, env)
    && StartedNames(todo, hosted)
    && CacheCovers(cfg, todo, cache, final)
    && CacheKeeps(cache, final)
    && ProvidersFromCache(cfg, todo, hosted, final)
  }

  /** What starting one agent promises: its entry, and the cache grown by its key only. */
  ghost predicate StartedOne(
    cfg: ProjectConfig, e: Entry<string, AgentConfig>, env: map<string, string>,
    cache: seq<Entry<ProviderKey, Providers.Provider>>, h: Hosted, cache1: seq<Entry<ProviderKey, Providers.Provider>>)
  {
    && h.name == e.key && h.config == LocalOnly(e.value)
    && CacheSound(cache1, env)
    && Find(cache1, KeyOf(e.value, cfg)) == Some(h.provider)
    && (forall k :: HasKey(cache1, k) <==> HasKey(cache, k) || k == KeyOf(e.value, cfg))
    && CacheKeeps(cache, cache1)
  }

  lemma StartedNamesCons(todo: seq<Entry<string, AgentConfig>>, h: Hosted, rest: seq<Hosted>)
    requires |todo| > 0 && h.name == todo[0].key && h.config == LocalOnly(todo[0].value)
    requires StartedNames(todo[1..], rest)
    ensures StartedNames(todo, [h] + rest)
  {
    var hosted := [h] + rest;
    forall i | 0 < i < |todo| ensures hosted[i].name == todo[i].key && hosted[i].config == LocalOnly(todo[i].value) {
      assert todo[1..][i - 1] == todo[i] && hosted[i] == rest[i - 1];
    }
  }

  lemma CacheCoversCons(cfg: ProjectConfig, todo: seq<Entry<string, AgentConfig>>, cache: seq<Entry<ProviderKey, Providers.Provider>>,
                        cache1: seq<Entry<ProviderKey, Providers.Provider>>, final: seq<Entry<ProviderKey, Providers.Provider>>)
    requires |todo| > 0
    requires forall k :: HasKey(cache1, k) <==> HasKey(cache, k) || k == KeyOf(todo[0].value, cfg)
    requires CacheCovers(cfg, todo[1..], cache1, final)
    ensures CacheCovers(cfg, todo, cache, final)
  {
    KeyUsedCons(todo, cfg);
  }

  lemma ProvidersFromCacheCons(cfg: ProjectConfig, todo: seq<Entry<string, AgentConfig>>, h: Hosted, rest: seq<Hosted>,
                               cache1: seq<Entry<ProviderKey, Providers.Provider>>, final: seq<Entry<ProviderKey, Providers.Provider>>)
    requires |todo| > 0 && |rest| == |todo| - 1
    requires Find(cache1, KeyOf(todo[0].value, cfg)) == Some(h.provider)
    requires CacheKeeps(cache1, final)
    requires ProvidersFromCache(cfg, todo[1..], rest, final)
    ensures ProvidersFromCache(cfg, todo, [h] + rest, final)
  {
    var hosted := [h] + rest;
    assert HasKey(cache1, KeyOf(todo[0].value, cfg));
    forall i | 0 < i < |todo| ensures Find(final, KeyOf(todo[i].value, cfg)) == Some(hosted[i].provider) {
      assert todo[1..][i - 1] == todo[i] && hosted[i] == rest[i - 1];
    }
  }

  lemma StartedCons(
    cfg: ProjectConfig, todo: seq<Entry<string, AgentConfig>>, env: map<string, string>,
    cache: seq<Entry<ProviderKey, Providers.Provider>>, h: Hosted, cache1: seq<Entry<ProviderKey, Providers.Provider>>,
    rest: seq<Hosted>, final: seq<Entry<ProviderKey, Providers.Provider>>)
    requires |todo| > 0
    requires StartedOne(cfg, todo[0], env, cache, h, cache1)
    requires Started(cfg, todo[1..], env, cache1, rest, final)
    ensures Started(cfg, todo, env, cache, [h] + rest, final)
  {
    StartedNamesCons(todo, h, rest);
    CacheCoversCons(cfg, todo, cache, cache1, final);
    ProvidersFromCacheCons(cfg, todo, h, rest, cache1, final);
  }

  /** Starts one agent: resolve its externals, take the cached provider, initialise it. */
  function StartOne(
    cfg: ProjectConfig, e: Entry<string, AgentConfig>, env: map<string, string>,
    urlPath: string -> string, skillFiles: map<string, string>, listing: map<string, seq<McpTool>>,
    cache: seq<Entry<ProviderKey, Providers.Provider>>)
    : (r: Result<(Hosted, seq<Entry<ProviderKey, Providers.Provider>>), string>)
    requires CacheSound(cache, env)
    ensures r.Success? ==> StartedOne(cfg, e, env, cache, r.value.0, r.value.1)
    ensures r.Success? ==>
      Agent.Initialize(e.key, e.value.description, LocalOnly(e.value).skills, LocalOnly(e.value).tools, Keys(cfg.agents),
                       ExternalPaths(cfg.projectDir, "tools", e.value.tools, urlPath),
                       cfg.projectDir, skillFiles, listing, true) == Success(r.value.0.state)
    ensures r.Success? ==> r.value.0.state.systemPrompt == Agent.SystemPrompt(e.value.description, LocalOnly(e.value).skills, skillFiles)
    ensures CachedProvider(cache, KeyOf(e.value, cfg), env).Failure? ==> r == Failure(CachedProvider(cache, KeyOf(e.value, cfg), env).error)
  {
    var local := LocalOnly(e.value);
    match CachedProvider(cache, KeyOf(e.value, cfg), env)
    case Failure(err) => Failure(err)
    case Success((provider, cache1)) =>
      match Agent.Initialize(e.key, e.value.description, local.skills, local.tools, Keys(cfg.agents),
                             ExternalPaths(cfg.projectDir, "tools", e.value.tools, urlPath),
                             cfg.projectDir, skillFiles, listing, true)
      case Failure(err) => Failure(err)
      case Success(state) => Success((Hosted(e.key, local, state, provider), cache1))
  }

  /**
   * The loop of `AgentDaemon.initialize` over the agents still to start;
   * the first failure ends start-up.
   */
  function StartAgents(
    cfg: ProjectConfig, todo: seq<Entry<string, AgentConfig>>, env: map<string, string>,
    urlPath: string -> string, skillFiles: map<string, string>, listing: map<string, seq<McpTool>>,
    cache: seq<Entry<ProviderKey, Providers.Provider>>)
    : (r: Result<(seq<Hosted>, seq<Entry<ProviderKey, Providers.Provider>>), string>)
    requires CacheSound(cache, env)
    ensures r.Success? ==> Started(cfg, todo, env, cache, r.value.0, r.value.1)
    decreases |todo|
  {
    if |todo| == 0 then Success(([], cache))
    else
      match StartOne(cfg, todo[0], env, urlPath, skillFiles, listing, cache)
      case Failure(e) => Failure(e)
      case Success((h, cache1)) =>
        match StartAgents(cfg, todo[1..], env, urlPath, skillFiles, listing, cache1)
        case Failure(e) => Failure(e)
        case Success((rest, final)) =>
          StartedCons(cfg, todo, env, cache, h, cache1, rest, final);
          Success(([h] + rest, final))
  }

  /** Agents that resolve to the same provider and model are handed the same provider. */
  lemma SharedKeySharesProvider(
    cfg: ProjectConfig, todo: seq<Entry<string, AgentConfig>>, env: map<string, string>,
    urlPath: string -> string, skillFiles: map<string, string>, listing: map<string, seq<McpTool>>,
    i: nat, j: nat)
    requires StartAgents(cfg, todo, env, urlPath, skillFiles, listing, []).Success?
    requires i < |todo| && j < |todo| && KeyOf(todo[i].value, cfg) == KeyOf(todo[j].value, cfg)
    ensures StartAgents(cfg, todo, env, urlPath, skillFiles, listing, []).value.0[i].provider ==
            StartAgents(cfg, todo, env, urlPath, skillFiles, listing, []).value.0[j].provider
  {
  }

  /** Each cached provider belongs to a key some agent uses, and no key is cached twice. */
  lemma OneProviderPerKey(
    cfg: ProjectConfig, todo: seq<Entry<string, AgentConfig>>, env: map<string, string>,
    urlPath: string -> string, skillFiles: map<string, string>, listing: map<string, seq<McpTool>>)
    requires StartAgents(cfg, todo, env, urlPath, skillFiles, listing, []).Success?
    ensures UniqueKeys(StartAgents(cfg, todo, env, urlPath, skillFiles, listing, []).value.1)
    ensures forall e :: e in StartAgents(cfg, todo, env, urlPath, skillFiles, listing, []).value.1 ==> KeyUsed(todo, cfg, e.key)
  {
    var cache := StartAgents(cfg, todo, env, urlPath, skillFiles, listing, []).value.1;
    forall e | e in cache ensures KeyUsed(todo, cfg, e.key) {
      var n :| 0 <= n < |cache| && cache[n] == e;
      assert HasKey(cache, e.key);
    }
  }

  // ----- the schedule -----

  /** One scheduled job: which agent, its cron expression and message, and when it next fires. */
  datatype ScheduleItem = ScheduleItem(agent: string, cron: string, message: string, nextRun: int)

  /** The jobs of one agent, each first due at its cron's next time after `now`. */
  function AgentJobs(name: string, entries: seq<ScheduleEntry>, now: int, cronValid: string -> bool, cronNext: (string, int) -> int)
    : (r: Result<seq<ScheduleItem>, string>)
    ensures r.Failure? <==> exists j :: 0 <= j < |entries| && !cronValid(entries[j].cron)
    ensures r.Success? ==> |r.value| == |entries| && forall j :: 0 <= j < |entries| ==>
      r.value[j] == ScheduleItem(name, entries[j].cron, entries[j].message, cronNext(entries[j].cron, now))
  {
    if |entries| == 0 then Success([])
    else if !cronValid(entries[0].cron) then Failure(entries[0].cron)
    else
      match AgentJobs(name, entries[1..], now, cronValid, cronNext)
      case Failure(e) =>
        var j :| 0 <= j < |entries[1..]| && !cronValid(entries[1..][j].cron);
        assert !cronValid(entries[j + 1].cron);
        Failure(e)
      case Success(rest) =>
        assert forall j :: 1 <= j < |entries| ==> entries[j] == entries[1..][j - 1];
        Success([ScheduleItem(name, entries[0].cron, entries[0].message, cronNext(entries[0].cron, now))] + rest)
  }

  /** A cron expression croniter rejects; the error carries the expression. */
  predicate HasBadCron(agents: seq<Entry<string, AgentConfig>>, cronValid: string -> bool) {
    exists i, j :: 0 <= i < |agents| && 0 <= j < |agents[i].value.schedule| && !cronValid(agents[i].value.schedule[j].cron)
  }

  /** The number of schedule entries across all agents. */
  function JobCount(agents: seq<Entry<string, AgentConfig>>): nat {
    if |agents| == 0 then 0 else |agents[0].value.schedule| + JobCount(agents[1..])
  }

  /** `_build_schedule`: one job per (agent, schedule entry), in configuration order. */
  function BuildSchedule(agents: seq<Entry<string, AgentConfig>>, now: int, cronValid: string -> bool, cronNext: (string, int) -> int)
    : (r: Result<seq<ScheduleItem>, string>)
    ensures r.Failure? <==> HasBadCron(agents, cronValid)
    ensures r.Success? ==> |r.value| == JobCount(agents)
    ensures r.Success? ==> forall k :: 0 <= k < |r.value| ==> r.value[k].nextRun == cronNext(r.value[k].cron, now)
    decreases |agents|
  {
    if |agents| == 0 then Success([])
    else
      var head := AgentJobs(agents[0].key, agents[0].value.schedule, now, cronValid, cronNext);
      var rest := BuildSchedule(agents[1..], now, cronValid, cronNext);
      assert HasBadCron(agents, cronValid) <==> head.Failure? || HasBadCron(agents[1..], cronValid) by {
        if HasBadCron(agents[1..], cronValid) {
          var i, j :| 0 <= i < |agents[1..]| && 0 <= j < |agents[1..][i].value.schedule| && !cronValid(agents[1..][i].value.schedule[j].cron);
          assert agents[1..][i] == agents[i + 1];
        }
        if HasBadCron(agents, cronValid) && !head.Failure? {
          var i, j :| 0 <= i < |agents| && 0 <= j < |agents[i].value.schedule| && !cronValid(agents[i].value.schedule[j].cron);
          assert i != 0;
          assert agents[1..][i - 1] == agents[i];
        }
      }
      match head
      case Failure(e) => Failure(e)
      case Success(items) =>
        match rest
        case Failure(e) => Failure(e)
        case Success(more) => Success(items + more)
  }

  /** The jobs are laid out agent by agent, in configuration order. */
  lemma {:induction false} BuildScheduleAppend(a: seq<Entry<string, AgentConfig>>, b: seq<Entry<string, AgentConfig>>, now: int, cronValid: string -> bool, cronNext: (string, int) -> int)
    requires BuildSchedule(a + b, now, cronValid, cronNext).Success?
    ensures BuildSchedule(a, now, cronValid, cronNext).Success? && BuildSchedule(b, now, cronValid, cronNext).Success?
    ensures BuildSchedule(a + b, now, cronValid, cronNext).value ==
      BuildSchedule(a, now, cronValid, cronNext).value + BuildSchedule(b, now, cronValid, cronNext).value
    decreases |a|
  {
    if |a| == 0 {
      assert a + b == b;
    } else {
      assert (a + b)[0] == a[0];
      assert (a + b)[1..] == a[1..] + b;
      BuildScheduleAppend(a[1..], b, now, cronValid, cronNext);
    }
  }

  /** An agent's jobs appear in the order of its schedule entries. */
  lemma BuildScheduleOne(name: string, a: AgentConfig, now: int, cronValid: string -> bool, cronNext: (string, int) -> int)
    requires BuildSchedule([Entry(name, a)], now, cronValid, cronNext).Success?
    ensures var r := BuildSchedule([Entry(name, a)], now, cronValid, cronNext).value;
      |r| == |a.schedule| && forall j :: 0 <= j < |r| ==>
        r[j] == ScheduleItem(name, a.schedule[j].cron, a.schedule[j].message, cronNext(a.schedule[j].cron, now))
  {
    var agents := [Entry(name, a)];
    assert agents[1..] == [];
    assert BuildSchedule(agents[1..], now, cronValid, cronNext) == Success([]);
  }

  // ----- one wake-up of the scheduler -----

  predicate ByTime(s: seq<ScheduleItem>) {
    forall i, j :: 0 <= i < j < |s| ==> s[i].nextRun <= s[j].nextRun
  }

  /**
   * Inserts `x` before the first job due no earlier than it: `x` precedes
   * every job of `s` that has its time, which makes the sort stable.
   */
  function InsertByTime(x: ScheduleItem, s: seq<ScheduleItem>): (r: seq<ScheduleItem>)
    requires ByTime(s)
    ensures ByTime(r)
    ensures multiset(r) == multiset(s) + multiset{x}
    decreases |s|, 0
  {
    if |s| == 0 then [x]
    else if x.nextRun <= s[0].nextRun then
      assert forall j :: 0 < j < |s| ==> x.nextRun <= s[j].nextRun;
      [x] + s
    else
      var rest := InsertByTime(x, s[1..]);
      InsertKeepsBound(s[0].nextRun, x, s[1..]);
      assert s == [s[0]] + s[1..];
      [s[0]] + rest
  }

  lemma {:induction false} InsertKeepsBound(b: int, x: ScheduleItem, s: seq<ScheduleItem>)
    requires ByTime(s)
    requires b <= x.nextRun && forall j :: 0 <= j < |s| ==> b <= s[j].nextRun
    ensures forall j :: 0 <= j < |InsertByTime(x, s)| ==> b <= InsertByTime(x, s)[j].nextRun
    decreases |s|, 1
  {
    if |s| > 0 && x.nextRun > s[0].nextRun {
      InsertKeepsBound(b, x, s[1..]);
    }
  }

  /** `list.sort(key=next_run)`. */
  function SortByTime(s: seq<ScheduleItem>): (r: seq<ScheduleItem>)
    ensures ByTime(r)
    ensures multiset(r) == multiset(s)
    ensures |r| == |s|
  {
    if |s| == 0 then []
    else
      assert s == [s[0]] + s[1..];
      var r := InsertByTime(s[0], SortByTime(s[1..]));
      assert |r| == |multiset(r)|;
      r
  }

  /** The jobs firing at time `v`, in list order. */
  function AtTime(s: seq<ScheduleItem>, v: int): seq<ScheduleItem> {
    if |s| == 0 then [] else (if s[0].nextRun == v then [s[0]] else []) + AtTime(s[1..], v)
  }

  lemma {:induction false} InsertAtTime(x: ScheduleItem, s: seq<ScheduleItem>, v: int)
    requires ByTime(s)
    ensures AtTime(InsertByTime(x, s), v) == (if x.nextRun == v then [x] else []) + AtTime(s, v)
    decreases |s|
  {
    var r := InsertByTime(x, s);
    if |s| == 0 {
      AtTimeCons(x, [], v);
      assert r == [x] + [];
    } else if x.nextRun <= s[0].nextRun {
      AtTimeCons(x, s, v);
      assert r == [x] + s;
    } else {
      ByTimeTail(s);
      var ins := InsertByTime(x, s[1..]);
      InsertAtTime(x, s[1..], v);
      assert r == [s[0]] + ins;
      AtTimeCons(s[0], ins, v);
      AtTimeCons(s[0], s[1..], v);
      assert s == [s[0]] + s[1..];
      var tail := AtTime(s[1..], v);
      if s[0].nextRun == v {
        assert x.nextRun != v;
        assert AtTime(ins, v) == [] + tail == tail;
        assert AtTime(s, v) == [s[0]] + tail;
      } else {
        assert AtTime(r, v) == [] + AtTime(ins, v) == AtTime(ins, v);
        assert AtTime(s, v) == [] + tail == tail;
      }
    }
  }

  lemma AtTimeCons(a: ScheduleItem, s: seq<ScheduleItem>, v: int)
    ensures AtTime([a] + s, v) == (if a.nextRun == v then [a] else []) + AtTime(s, v)
  {
    assert ([a] + s)[1..] == s;
  }

  lemma ByTimeTail(s: seq<ScheduleItem>)
    requires ByTime(s) && |s| > 0
    ensures ByTime(s[1..])
  {
    forall i, j | 0 <= i < j < |s[1..]| ensures s[1..][i].nextRun <= s[1..][j].nextRun {
      assert s[1..][i] == s[i + 1] && s[1..][j] == s[j + 1];
    }
  }

  /**
   * `list.sort` is stable: for every time, the jobs firing then keep
   * their relative order.
   */
  lemma {:induction false} SortIsStable(s: seq<ScheduleItem>, v: int)
    ensures AtTime(SortByTime(s), v) == AtTime(s, v)
  {
    if |s| > 0 {
      SortIsStable(s[1..], v);
      InsertAtTime(s[0], SortByTime(s[1..]), v);
    }
  }

  /** Sorting a list already in time order leaves it unchanged. */
  lemma {:induction false} SortKeepsSorted(s: seq<ScheduleItem>)
    requires ByTime(s)
    ensures SortByTime(s) == s
  {
    if |s| > 0 {
      ByTimeTail(s);
      SortKeepsSorted(s[1..]);
      assert |s| == 1 || s[0].nextRun <= s[1..][0].nextRun;
      assert SortByTime(s) == InsertByTime(s[0], s[1..]);
      InsertAtFront(s[0], s[1..]);
      assert s == [s[0]] + s[1..];
    }
  }

  lemma InsertAtFront(x: ScheduleItem, s: seq<ScheduleItem>)
    requires ByTime(s) && (|s| == 0 || x.nextRun <= s[0].nextRun)
    ensures InsertByTime(x, s) == [x] + s
  {
  }

  /** The earliest firing time among the jobs: an independent reference for the sort's first element. */
  function Earliest(s: seq<ScheduleItem>): (m: int)
    requires |s| > 0
    ensures forall i :: 0 <= i < |s| ==> m <= s[i].nextRun
    ensures exists i :: 0 <= i < |s| && s[i].nextRun == m
  {
    if |s| == 1 then s[0].nextRun
    else
      var m := Earliest(s[1..]);
      assert forall i :: 1 <= i < |s| ==> s[i] == s[1..][i - 1];
      if s[0].nextRun <= m then s[0].nextRun else m
  }

  lemma SortedHeadIsEarliest(s: seq<ScheduleItem>)
    requires |s| > 0
    ensures SortByTime(s)[0].nextRun == Earliest(s)
  {
    var r := SortByTime(s);
    var i :| 0 <= i < |s| && s[i].nextRun == Earliest(s);
    assert s[i] in multiset(s);
    assert s[i] in r;
    assert r[0] in multiset(r);
    assert r[0] in s;
  }

  predicate DueBy(e: ScheduleItem, now: int) {
    e.nextRun <= now
  }

  /** The jobs due at `now`, in list order. */
  function Due(s: seq<ScheduleItem>, now: int): (r: seq<ScheduleItem>)
    ensures forall e :: e in r ==> e in s && DueBy(e, now)
    ensures forall e :: e in s && DueBy(e, now) ==> e in r
    ensures |r| <= |s|
  {
    if |s| == 0 then []
    else (if DueBy(s[0], now) then [s[0]] else []) + Due(s[1..], now)
  }

  /** Advances every due job by one cron step from its own previous time. */
  function Advance(s: seq<ScheduleItem>, now: int, cronNext: (string, int) -> int): (r: seq<ScheduleItem>)
    ensures |r| == |s|
    ensures forall i :: 0 <= i < |s| && DueBy(s[i], now) ==>
      r[i] == s[i].(nextRun := cronNext(s[i].cron, s[i].nextRun))
    ensures forall i :: 0 <= i < |s| && !DueBy(s[i], now) ==> r[i] == s[i]
  {
    seq(|s|, i requires 0 <= i < |s| =>
      if DueBy(s[i], now) then s[i].(nextRun := cronNext(s[i].cron, s[i].nextRun)) else s[i])
  }

  /** The outcome of one pass of the scheduler loop. */
  datatype Wake =
    | Idle(sleep: int)
    | Woke(delay: int, fired: seq<ScheduleItem>, jobs: seq<ScheduleItem>)

  const IdleSleep := 60

  /**
   * One pass of `_run_scheduler`: with no jobs, sleep a minute; otherwise
   * sort the jobs, sleep until the earliest (when it lies ahead of
   * `before`), then at `after` fire every due job once and advance it.
   */
  function SchedulerStep(jobs: seq<ScheduleItem>, before: int, after: int, cronNext: (string, int) -> int): (r: Wake)
    ensures jobs == [] <==> r == Idle(IdleSleep)
    ensures r.Woke? ==> r.delay == if Earliest(jobs) > before then Earliest(jobs) - before else 0
    ensures r.Woke? ==> multiset(r.fired) <= multiset(jobs) && |r.jobs| == |jobs|
    ensures r.Woke? ==> forall e :: e in jobs && DueBy(e, after) ==> e in r.fired
    ensures r.Woke? ==> forall e :: e in r.fired ==> DueBy(e, after)
    ensures r.Woke? ==> r.fired == Due(SortByTime(jobs), after) && ByTime(r.fired)
    ensures r.Woke? ==> r.jobs == Advance(SortByTime(jobs), after, cronNext)
  {
    if jobs == [] then Idle(IdleSleep)
    else
      var sorted := SortByTime(jobs);
      var earliest := sorted[0].nextRun;
      WakeFacts(jobs, after);
      DueByTime(sorted, after);
      Woke(if earliest > before then earliest - before else 0, Due(sorted, after), Advance(sorted, after, cronNext))
  }

  lemma WakeFacts(jobs: seq<ScheduleItem>, after: int)
    requires jobs != []
    ensures SortByTime(jobs)[0].nextRun == Earliest(jobs)
    ensures multiset(Due(SortByTime(jobs), after)) <= multiset(jobs)
    ensures forall e :: e in jobs && DueBy(e, after) ==> e in Due(SortByTime(jobs), after)
  {
    var sorted := SortByTime(jobs);
    SortedHeadIsEarliest(jobs);
    DueSubMultiset(sorted, after);
    forall e | e in jobs && DueBy(e, after) ensures e in Due(sorted, after) {
      assert e in multiset(jobs);
      assert e in sorted;
    }
  }

  /** Due jobs of a list in time order fire in time order. */
  lemma {:induction false} DueByTime(s: seq<ScheduleItem>, now: int)
    requires ByTime(s)
    ensures ByTime(Due(s, now))
    decreases |s|
  {
    if |s| > 0 {
      ByTimeTail(s);
      DueByTime(s[1..], now);
      var d := Due(s, now);
      if DueBy(s[0], now) {
        forall j | 1 <= j < |d| ensures s[0].nextRun <= d[j].nextRun {
          assert d[j] in Due(s[1..], now);
          var k :| 0 <= k < |s[1..]| && s[1..][k] == d[j];
          assert s[1..][k] == s[k + 1];
        }
      }
    }
  }

  lemma {:induction false} DueSubMultiset(s: seq<ScheduleItem>, now: int)
    ensures multiset(Due(s, now)) <= multiset(s)
    decreases |s|
  {
    if |s| > 0 {
      DueSubMultiset(s[1..], now);
      assert s == [s[0]] + s[1..];
    }
  }

  /**
   * When every cron step moves strictly forward, a wake-up moves each fired
   * job strictly later and leaves the others where they were.
   */
  lemma {:induction false} FiredJobsMoveForward(jobs: seq<ScheduleItem>, before: int, after: int, cronNext: (string, int) -> int)
    requires forall c, t :: cronNext(c, t) > t
    requires jobs != []
    ensures var r := SchedulerStep(jobs, before, after, cronNext);
      var sorted := SortByTime(jobs);
      forall i :: 0 <= i < |sorted| ==>
        (DueBy(sorted[i], after) ==> r.jobs[i].nextRun > sorted[i].nextRun) &&
        (!DueBy(sorted[i], after) ==> r.jobs[i] == sorted[i])
  {
    var sorted := SortByTime(jobs);
    var r := SchedulerStep(jobs, before, after, cronNext);
    assert r.jobs == Advance(sorted, after, cronNext);
    forall i | 0 <= i < |sorted| && DueBy(sorted[i], after)
      ensures r.jobs[i].nextRun > sorted[i].nextRun
    {
      assert cronNext(sorted[i].cron, sorted[i].nextRun) > sorted[i].nextRun;
    }
  }

  // ----- scheduled runs and delegation -----

  /** What `_execute_scheduled_run` logs; it never raises. */
  datatype RunLog =
    | AgentMissing(agent: string)
    | Completed(agent: string, cron: string, resultLength: nat)
    | RunFailed(agent: string, cron: string, error: string)
    | Running

  /** A fired job runs its agent at depth 0 with debugging off; any failure is only logged. */
  function ScheduledRun(reg: map<string, Agent.AgentState>, job: ScheduleItem, t: Agent.Tapes): (log: RunLog)
    ensures job.agent !in reg <==> log == AgentMissing(job.agent)
    ensures job.agent in reg ==> match Agent.Delegate(reg, job.agent, job.message, 0, false, t)
      case Done(res, _) => log == Completed(job.agent, job.cron, |res.text|) && res.debugEvents == []
      case Raised(e) => log == RunFailed(job.agent, job.cron, e)
      case Stalled => log == Running
  {
    if job.agent !in reg then AgentMissing(job.agent)
    else
      Agent.DelegateRuns(reg, job.agent, job.message, 0, false, t);
      match Agent.Run(reg, reg[job.agent], job.message, 0, false, t)
      case Done(trace, _) => Completed(job.agent, job.cron, |trace.result.text|)
      case Raised(e) => RunFailed(job.agent, job.cron, e)
      case Stalled => Running
  }

  // ----- the whole start-up -----

  /** The running daemon: the configuration as rewritten at start-up, the agents, the cache and the jobs. */
  datatype DaemonState = DaemonState(
    config: ProjectConfig,
    hosted: seq<Hosted>,
    cache: seq<Entry<ProviderKey, Providers.Provider>>,
    jobs: seq<ScheduleItem>)

  function HostedNames(hosted: seq<Hosted>): (r: seq<string>)
    ensures |r| == |hosted| && forall i :: 0 <= i < |hosted| ==> r[i] == hosted[i].name
  {
    seq(|hosted|, i requires 0 <= i < |hosted| => hosted[i].name)
  }

  /** No entry after `i` carries its name: a later entry of the same name would replace it. */
  predicate LastNamed(hosted: seq<Hosted>, i: int)
    requires 0 <= i < |hosted|
  {
    forall j :: i < j < |hosted| ==> hosted[j].name != hosted[i].name
  }

  lemma RegistryLast(hosted: seq<Hosted>)
    requires |hosted| > 0
    ensures forall i :: 0 <= i < |hosted| - 1 && LastNamed(hosted, i) ==>
      LastNamed(hosted[..|hosted| - 1], i) && hosted[..|hosted| - 1][i] == hosted[i] && hosted[i].name != hosted[|hosted| - 1].name
  {
  }

  /** `self.agents` as the lookup the agents delegate through. */
  function Registry(hosted: seq<Hosted>): (reg: map<string, Agent.AgentState>)
    ensures forall n :: n in reg <==> n in HostedNames(hosted)
    ensures forall i :: 0 <= i < |hosted| && LastNamed(hosted, i) ==> reg[hosted[i].name] == hosted[i].state
  {
    if |hosted| == 0 then map[]
    else
      var init := hosted[..|hosted| - 1];
      var last := hosted[|hosted| - 1];
      assert HostedNames(hosted) == HostedNames(init) + [last.name];
      RegistryLast(hosted);
      Registry(init)[last.name := last.state]
  }

  /** The configuration with every agent's lists rewritten to local names, as start-up leaves it. */
  function Rewritten(agents: seq<Entry<string, AgentConfig>>): (r: seq<Entry<string, AgentConfig>>)
    ensures Keys(r) == Keys(agents)
    ensures forall i :: 0 <= i < |agents| ==> r[i].value == LocalOnly(agents[i].value)
  {
    seq(|agents|, i requires 0 <= i < |agents| => Entry(agents[i].key, LocalOnly(agents[i].value)))
  }

  /** `AgentDaemon.initialize`: start every agent in order, then build the schedule. */
  function Initialize(
    cfg: ProjectConfig, env: map<string, string>, urlPath: string -> string,
    skillFiles: map<string, string>, listing: map<string, seq<McpTool>>,
    now: int, cronValid: string -> bool, cronNext: (string, int) -> int)
    : (r: Result<DaemonState, string>)
    ensures r.Success? ==> HostedNames(r.value.hosted) == Keys(cfg.agents)
    ensures r.Success? ==> Keys(r.value.config.agents) == Keys(cfg.agents)
    ensures r.Success? ==> CacheSound(r.value.cache, env)
    ensures r.Success? ==> |r.value.jobs| == JobCount(cfg.agents)
    ensures StartAgents(cfg, cfg.agents, env, urlPath, skillFiles, listing, []).Success? ==>
      (r.Failure? <==> HasBadCron(cfg.agents, cronValid))
  {
    match StartAgents(cfg, cfg.agents, env, urlPath, skillFiles, listing, [])
    case Failure(e) => Failure(e)
    case Success((hosted, cache)) =>
      match BuildSchedule(cfg.agents, now, cronValid, cronNext)
      case Failure(e) => Failure(e)
      case Success(jobs) =>
        assert HostedNames(hosted) == Keys(cfg.agents);
        Success(DaemonState(cfg.(agents := Rewritten(cfg.agents)), hosted, cache, jobs))
  }
}
