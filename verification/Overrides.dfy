/** applyProcessOverrides: what the operator decided on the command line of `coddy serve`,
    applied to the document the process loaded and again to every document a reload brings. */
module Overrides {
  import opened Options
  import opened Flags
  import opened Text

  // ----- documents -----

  datatype Logger = Logger(level: string, levels: seq<string>, outputs: seq<string>, file: string, format: string)

  /** The parts of config.yaml the overrides touch; rest stands for all the others. */
  datatype Doc = Doc(
    http: Option<bool>, gateway: bool, swarm: bool, scheduler: bool,
    swarmInsecure: bool, pairingTokens: seq<string>, swarmHost: string,
    autoDiscovery: Option<bool>, projectTrust: string, idleTimeout: Option<int>, schedulerTrust: string,
    logger: Logger, rest: string)

  /** What lies outside: the pairing token of the environment, strings.TrimSpace, the readers of
      the two trust policies (MCP.Validate, SchedulerConfig.Validate; both are a Policy below), of a
      log level spec and of a log output, the relay's default
      host, and what SwarmConfig.Normalize and the validations make of the settings that are not
      modelled. */
  datatype Env = Env(
    pairing: string,
    trim: string -> string,
    trustPolicy: string -> Option<string>,
    schedulerTrust: string -> Option<string>,
    levelSpec: string -> (string, seq<string>),
    outputs: string -> seq<string>,
    defaultHost: string,
    normalRest: string -> string,
    swarmOk: string -> bool,
    schedulerOk: (string, bool) -> bool)

  /** All the overrides need of TrimSpace and of the scheduler's policy. */
  ghost predicate Lawful(env: Env) {
    && (forall s {:trigger env.trim(env.trim(s))} :: env.trim(env.trim(s)) == env.trim(s))
    && env.trim("") == ""
    && env.trim(env.defaultHost) == env.defaultHost
    && (forall s :: env.schedulerTrust(s).Some? ==> SettledTrust(env, env.schedulerTrust(s).value))
  }

  predicate SettledTrust(env: Env, policy: string) {
    env.schedulerTrust(policy) == Some(policy)
  }

  /** The reading of a trust policy: word is ToLower of TrimSpace, unset what an empty one becomes. */
  function Policy(word: string -> string, unset: string, s: string): Option<string> {
    if word(s) == "" then Some(unset)
    else if word(s) in ["ask", "allow", "deny"] then Some(word(s))
    else None
  }

  /** What such a reading gives, it gives back. */
  lemma PolicySettles(word: string -> string, unset: string, s: string)
    requires word("") == "" && word("ask") == "ask" && word("allow") == "allow" && word("deny") == "deny"
    requires unset in ["", "ask"] && Policy(word, unset, s).Some?
    ensures Policy(word, unset, Policy(word, unset, s).value) == Policy(word, unset, s)
  {
  }

  function FirstNonEmpty(env: Env, a: string, b: string): string {
    if env.trim(a) != "" then a else if env.trim(b) != "" then b else ""
  }

  function EffectiveHost(env: Env, host: string): string {
    if env.trim(host) == "" then env.defaultHost else env.trim(host)
  }

  // ----- what the operator chose -----

  function Switch(st: State, name: string): bool {
    name in st.cells && st.cells[name].BoolV? && st.cells[name].b
  }

  /** A switch counts only where it was typed. */
  function Typed(st: State, name: string): Option<bool> {
    if name in st.actual then Some(Switch(st, name)) else None
  }

  function Str(st: State, name: string): string {
    if name in st.cells && st.cells[name].StringV? then st.cells[name].s else ""
  }

  datatype Choices = Choices(
    http: Option<bool>, gateway: Option<bool>, swarm: Option<bool>, scheduler: Option<bool>,
    insecure: bool, token: string, autoDiscovery: Option<bool>, trust: Option<string>,
    logLevel: string, logOutput: string, logFile: string, logFormat: string, swarmHost: string)

  /** The reading of the flag set and of the environment. */
  function ChoicesOf(st: State, env: Env): Choices {
    Choices(
      Typed(st, "http"), Typed(st, "gateway"), Typed(st, "swarm"), Typed(st, "scheduler"),
      Switch(st, "swarm-allow-insecure"),
      FirstNonEmpty(env, env.trim(Str(st, "swarm-pairing-token")), env.pairing),
      Typed(st, "skills-auto-discovery"),
      if "mcp-project-trust" in st.actual then Some(Str(st, "mcp-project-trust")) else None,
      env.trim(Str(st, "log-level")), env.trim(Str(st, "log-output")),
      env.trim(Str(st, "log-file")), env.trim(Str(st, "log-format")),
      env.trim(Str(st, "swarm-host")))
  }

  lemma ChoicesAreTrimmed(st: State, env: Env)
    requires Lawful(env)
    ensures env.trim(ChoicesOf(st, env).swarmHost) == ChoicesOf(st, env).swarmHost
  {
  }

  // ----- the specification -----

  function Or<T>(choice: Option<T>, file: T): T {
    match choice
    case Some(v) => v
    case None => file
  }

  function TrimAll(env: Env, tokens: seq<string>): (r: seq<string>)
    ensures |r| == |tokens|
    ensures forall i :: 0 <= i < |r| ==> r[i] == env.trim(tokens[i])
  {
    if tokens == [] then [] else [env.trim(tokens[0])] + TrimAll(env, tokens[1..])
  }

  /** Logger.ApplyOverrides. */
  function WithLogger(ch: Choices, env: Env, l: Logger): Logger {
    var (root, levels) := env.levelSpec(ch.logLevel);
    Logger(
      if ch.logLevel != "" && root != "" then root else l.level,
      if ch.logLevel != "" && levels != [] then levels else l.levels,
      if ch.logOutput != "" then env.outputs(ch.logOutput) else l.outputs,
      if ch.logFile != "" then ch.logFile else l.file,
      if ch.logFormat != "" then ch.logFormat else l.format)
  }

  /** applySubsystemFlags. */
  function WithSwitches(ch: Choices, d: Doc): Doc {
    d.(http := if ch.http.Some? then ch.http else d.http, gateway := Or(ch.gateway, d.gateway),
       swarm := Or(ch.swarm, d.swarm), scheduler := Or(ch.scheduler, d.scheduler))
  }

  /** The relay's insecure switch, its pairing token, and skill discovery. */
  function WithTyped(ch: Choices, d: Doc): Doc {
    d.(swarmInsecure := ch.insecure || d.swarmInsecure,
       pairingTokens := if ch.token != "" then d.pairingTokens + [ch.token] else d.pairingTokens,
       autoDiscovery := if ch.autoDiscovery.Some? then ch.autoDiscovery else d.autoDiscovery)
  }

  function WithFlags(ch: Choices, d: Doc): Doc {
    WithTyped(ch, WithSwitches(ch, d))
  }

  function WithTrust(trust: Option<string>, d: Doc): Doc {
    d.(projectTrust := Or(trust, d.projectTrust))
  }

  /** SwarmConfig.Normalize. */
  function Normalized(env: Env, d: Doc): Doc {
    d.(swarmHost := env.trim(d.swarmHost), pairingTokens := TrimAll(env, d.pairingTokens),
       rest := env.normalRest(d.rest))
  }

  /** SchedulerConfig.Validate rewrites the scheduler's policy before it looks at the rest. */
  function Vetted(env: Env, d: Doc): Doc {
    d.(schedulerTrust := Or(env.schedulerTrust(d.schedulerTrust), d.schedulerTrust))
  }

  predicate SchedulerOk(env: Env, d: Doc) {
    env.schedulerTrust(d.schedulerTrust).Some? && env.schedulerOk(d.rest, d.scheduler)
  }

  predicate Valid(env: Env, d: Doc) {
    env.swarmOk(d.rest) && SchedulerOk(env, d)
  }

  /** The log settings, and the host the relay really listens on. */
  function Finished(ch: Choices, env: Env, d: Doc): Doc {
    d.(logger := WithLogger(ch, env, d.logger),
       swarmHost := FirstNonEmpty(env, ch.swarmHost, EffectiveHost(env, d.swarmHost)))
  }

  /** The trust policy the overrides set, if one was typed that is accepted. */
  function TrustChoice(ch: Choices, env: Env): Option<string> {
    if ch.trust.Some? then env.trustPolicy(ch.trust.value) else None
  }

  /** A typed policy is checked with the document's idle timeout beside it. */
  predicate TrustRefused(ch: Choices, env: Env, d: Doc) {
    ch.trust.Some? && (env.trustPolicy(ch.trust.value).None? || (d.idleTimeout.Some? && d.idleTimeout.value < 0))
  }

  /** The document the validations see. */
  function Checked(ch: Choices, env: Env, d: Doc): Doc {
    ToCheck(ch, env, WithFlags(ch, d))
  }

  function ToCheck(ch: Choices, env: Env, flagged: Doc): Doc {
    Normalized(env, WithTrust(TrustChoice(ch, env), flagged))
  }

  /** The overrides are accepted on the document. */
  predicate Accepts(ch: Choices, env: Env, d: Doc) {
    !TrustRefused(ch, env, d) && Valid(env, Checked(ch, env, d))
  }

  function AfterChecks(ch: Choices, env: Env, checked: Doc): Doc {
    if !env.swarmOk(checked.rest) then checked
    else if !SchedulerOk(env, checked) then Vetted(env, checked)
    else Finished(ch, env, Vetted(env, checked))
  }

  function AfterFlags(ch: Choices, env: Env, flagged: Doc): Doc {
    if TrustRefused(ch, env, flagged) then flagged else AfterChecks(ch, env, ToCheck(ch, env, flagged))
  }

  /** The document after the overrides; a refused one is left as far as the refusal got. */
  function Adjusted(ch: Choices, env: Env, d: Doc): Doc {
    AfterFlags(ch, env, WithFlags(ch, d))
  }

  // ----- the configuration, changed in place -----

  class Config {
    var http: Option<bool>
    var gateway: bool
    var swarm: bool
    var scheduler: bool
    var swarmInsecure: bool
    var pairingTokens: seq<string>
    var swarmHost: string
    var autoDiscovery: Option<bool>
    var projectTrust: string
    var idleTimeout: Option<int>
    var schedulerTrust: string
    var logger: Logger
    var rest: string

    function Document(): Doc
      reads this
    {
      Doc(http, gateway, swarm, scheduler, swarmInsecure, pairingTokens, swarmHost, autoDiscovery, projectTrust,
          idleTimeout, schedulerTrust, logger, rest)
    }

    constructor (d: Doc)
      ensures Document() == d
    {
      http, gateway, swarm, scheduler := d.http, d.gateway, d.swarm, d.scheduler;
      swarmInsecure, pairingTokens, swarmHost := d.swarmInsecure, d.pairingTokens, d.swarmHost;
      autoDiscovery, projectTrust, idleTimeout := d.autoDiscovery, d.projectTrust, d.idleTimeout;
      schedulerTrust, logger, rest := d.schedulerTrust, d.logger, d.rest;
    }

    /** applySubsystemFlags: visits the typed flags and assigns the four switches. */
    method ApplySubsystemFlags(st: State)
      modifies `http, `gateway, `swarm, `scheduler
      ensures http == if "http" in st.actual then Some(Switch(st, "http")) else old(http)
      ensures gateway == if "gateway" in st.actual then Switch(st, "gateway") else old(gateway)
      ensures swarm == if "swarm" in st.actual then Switch(st, "swarm") else old(swarm)
      ensures scheduler == if "scheduler" in st.actual then Switch(st, "scheduler") else old(scheduler)
    {
      var visited := Sorted(st.actual);
      for i := 0 to |visited|
        invariant http == if "http" in visited[..i] then Some(Switch(st, "http")) else old(http)
        invariant gateway == if "gateway" in visited[..i] then Switch(st, "gateway") else old(gateway)
        invariant swarm == if "swarm" in visited[..i] then Switch(st, "swarm") else old(swarm)
        invariant scheduler == if "scheduler" in visited[..i] then Switch(st, "scheduler") else old(scheduler)
      {
        var name := visited[i];
        assert forall n :: n in visited[..i + 1] <==> n in visited[..i] || n == name;
        AssignSwitch(st, name);
      }
      assert visited[..|visited|] == visited;
    }

    /** One visited flag. */
    method AssignSwitch(st: State, name: string)
      modifies `http, `gateway, `swarm, `scheduler
      ensures http == if name == "http" then Some(Switch(st, name)) else old(http)
      ensures gateway == if name == "gateway" then Switch(st, name) else old(gateway)
      ensures swarm == if name == "swarm" then Switch(st, name) else old(swarm)
      ensures scheduler == if name == "scheduler" then Switch(st, name) else old(scheduler)
    {
      match name
      case "http" => http := Some(Switch(st, name));
      case "gateway" => gateway := Switch(st, name);
      case "swarm" => swarm := Switch(st, name);
      case "scheduler" => scheduler := Switch(st, name);
      case _ =>
    }

    /** The relay's insecure switch, its pairing token, and skill discovery. */
    method ApplyTyped(ch: Choices)
      modifies this
      ensures Document() == WithTyped(ch, old(Document()))
    {
      if ch.insecure {
        swarmInsecure := true;
      }
      if ch.token != "" {
        pairingTokens := pairingTokens + [ch.token];
      }
      if ch.autoDiscovery.Some? {
        autoDiscovery := ch.autoDiscovery;
      }
    }

    /** applyProcessOverrides. */
    method ApplyProcessOverrides(st: State, env: Env) returns (ok: bool)
      modifies this
      ensures ok == Accepts(ChoicesOf(st, env), env, old(Document()))
      ensures Document() == Adjusted(ChoicesOf(st, env), env, old(Document()))
    {
      var ch := ChoicesOf(st, env);
      ApplyFlags(st, env, ch);
      ok := ApplyTrust(ch, env);
      if ok {
        ok := ApplyChecked(ch, env);
      }
    }

    /** The switches, and what else is copied from the flag set without a check. */
    method ApplyFlags(st: State, env: Env, ch: Choices)
      requires ch == ChoicesOf(st, env)
      modifies this
      ensures Document() == WithFlags(ch, old(Document()))
    {
      ghost var switched := WithSwitches(ch, Document());
      ApplySubsystemFlags(st);
      assert Document() == switched;
      ApplyTyped(ch);
    }

    /** ApplyProjectTrustFlag. */
    method ApplyTrust(ch: Choices, env: Env) returns (ok: bool)
      modifies `projectTrust
      ensures ok == !TrustRefused(ch, env, old(Document()))
      ensures Document() == if ok then WithTrust(TrustChoice(ch, env), old(Document())) else old(Document())
    {
      if ch.trust.Some? {
        if idleTimeout.Some? && idleTimeout.value < 0 {
          return false;
        }
        var trust := env.trustPolicy(ch.trust.value);
        if trust.None? {
          return false;
        }
        projectTrust := trust.value;
      }
      ok := true;
    }

    /** The rest of it: validation, log settings and the relay's host. */
    method ApplyChecked(ch: Choices, env: Env) returns (ok: bool)
      modifies this
      ensures ok == Valid(env, Normalized(env, old(Document())))
      ensures Document() == AfterChecks(ch, env, Normalized(env, old(Document())))
    {
      Normalize(env);
      if !env.swarmOk(rest) {
        return false;
      }
      ok := ValidateScheduler(env);
      if ok {
        Finish(ch, env);
      }
    }

    /** SchedulerConfig.Validate. */
    method ValidateScheduler(env: Env) returns (ok: bool)
      modifies `schedulerTrust
      ensures ok == SchedulerOk(env, old(Document()))
      ensures Document() == Vetted(env, old(Document()))
    {
      var trust := env.schedulerTrust(schedulerTrust);
      if trust.None? {
        return false;
      }
      schedulerTrust := trust.value;
      return env.schedulerOk(rest, scheduler);
    }

    /** SwarmConfig.Normalize. */
    method Normalize(env: Env)
      modifies `swarmHost, `pairingTokens, `rest
      ensures Document() == Normalized(env, old(Document()))
    {
      swarmHost, pairingTokens, rest := env.trim(swarmHost), TrimAll(env, pairingTokens), env.normalRest(rest);
    }

    method Finish(ch: Choices, env: Env)
      modifies `logger, `swarmHost
      ensures Document() == Finished(ch, env, old(Document()))
    {
      logger := WithLogger(ch, env, logger);
      swarmHost := FirstNonEmpty(env, ch.swarmHost, EffectiveHost(env, swarmHost));
    }
  }

  // ----- what the overrides promise -----

  /** Each switch is the operator's where one was typed, and the file's where none was. */
  predicate KeepsSwitches(ch: Choices, env: Env, file: Doc, live: Doc) {
    && live.http == (if ch.http.Some? then ch.http else file.http)
    && live.gateway == Or(ch.gateway, file.gateway)
    && live.swarm == Or(ch.swarm, file.swarm)
    && live.scheduler == Or(ch.scheduler, file.scheduler)
    && live.autoDiscovery == (if ch.autoDiscovery.Some? then ch.autoDiscovery else file.autoDiscovery)
    && (live.rest == file.rest || live.rest == env.normalRest(file.rest))
  }

  lemma AdjustKeepsSwitches(ch: Choices, env: Env, d: Doc)
    ensures KeepsSwitches(ch, env, d, Adjusted(ch, env, d))
  {
    assert KeepsSwitches(ch, env, d, WithFlags(ch, d));
    var checked := Checked(ch, env, d);
    assert KeepsSwitches(ch, env, d, checked);
    assert KeepsSwitches(ch, env, d, Vetted(env, checked));
    assert KeepsSwitches(ch, env, d, Finished(ch, env, Vetted(env, checked)));
  }

  // ----- the flag set and the file -----

  /** The switches that run subsystems, relax the relay and discover skills. */
  predicate SwitchesAsTyped(st: State, file: Doc, live: Doc) {
    && live.http == (if "http" in st.actual then Some(Switch(st, "http")) else file.http)
    && live.gateway == (if "gateway" in st.actual then Switch(st, "gateway") else file.gateway)
    && live.swarm == (if "swarm" in st.actual then Switch(st, "swarm") else file.swarm)
    && live.scheduler == (if "scheduler" in st.actual then Switch(st, "scheduler") else file.scheduler)
    && live.autoDiscovery
       == (if "skills-auto-discovery" in st.actual
           then Some(Switch(st, "skills-auto-discovery")) else file.autoDiscovery)
    && (live.swarmInsecure <==> Switch(st, "swarm-allow-insecure") || file.swarmInsecure)
  }

  /** The relay listens on the host of its flag, else of the file, else on the default one, and takes
      the file's tokens and, behind them, that of the flag or else of the environment. */
  predicate RelayAsTyped(st: State, env: Env, file: Doc, live: Doc) {
    var host, token := env.trim(Str(st, "swarm-host")), env.trim(Str(st, "swarm-pairing-token"));
    && live.swarmHost == (if host != "" then host
                          else if env.trim(file.swarmHost) != "" then env.trim(file.swarmHost)
                          else env.defaultHost)
    && |live.pairingTokens| == |file.pairingTokens| + (if token != "" || env.trim(env.pairing) != "" then 1 else 0)
    && (forall i :: 0 <= i < |file.pairingTokens| ==> live.pairingTokens[i] == env.trim(file.pairingTokens[i]))
    && (|live.pairingTokens| > |file.pairingTokens| ==>
          live.pairingTokens[|file.pairingTokens|] == if token != "" then token else env.trim(env.pairing))
  }

  /** Each log setting is that of its own flag where one was given, and the file's where none was. */
  predicate LogAsTyped(st: State, env: Env, file: Logger, live: Logger) {
    var level, output := env.trim(Str(st, "log-level")), env.trim(Str(st, "log-output"));
    && live.level == (if level != "" && env.levelSpec(level).0 != "" then env.levelSpec(level).0 else file.level)
    && live.levels == (if level != "" && env.levelSpec(level).1 != [] then env.levelSpec(level).1 else file.levels)
    && live.outputs == (if output != "" then env.outputs(output) else file.outputs)
    && live.file == (if env.trim(Str(st, "log-file")) != "" then env.trim(Str(st, "log-file")) else file.file)
    && live.format == (if env.trim(Str(st, "log-format")) != "" then env.trim(Str(st, "log-format")) else file.format)
  }

  /** The trust policies, and the settings that no flag touches. */
  predicate RestAsTyped(st: State, env: Env, file: Doc, live: Doc) {
    && (if "mcp-project-trust" in st.actual
        then env.trustPolicy(Str(st, "mcp-project-trust")) == Some(live.projectTrust)
        else live.projectTrust == file.projectTrust)
    && env.schedulerTrust(file.schedulerTrust) == Some(live.schedulerTrust)
    && live.idleTimeout == file.idleTimeout && live.rest == env.normalRest(file.rest)
  }

  predicate AsTyped(st: State, env: Env, file: Doc, live: Doc) {
    && SwitchesAsTyped(st, file, live) && RelayAsTyped(st, env, file, live)
    && LogAsTyped(st, env, file.logger, live.logger) && RestAsTyped(st, env, file, live)
  }

  /** Which documents a command line is accepted on. */
  predicate AcceptedWith(st: State, env: Env, d: Doc) {
    && ("mcp-project-trust" in st.actual ==>
          env.trustPolicy(Str(st, "mcp-project-trust")).Some? && !(d.idleTimeout.Some? && d.idleTimeout.value < 0))
    && env.swarmOk(env.normalRest(d.rest)) && env.schedulerTrust(d.schedulerTrust).Some?
    && env.schedulerOk(
         env.normalRest(d.rest), if "scheduler" in st.actual then Switch(st, "scheduler") else d.scheduler)
  }

  lemma AcceptedExactly(st: State, env: Env, d: Doc)
    ensures Accepts(ChoicesOf(st, env), env, d) <==> AcceptedWith(st, env, d)
  {
    var ch := ChoicesOf(st, env);
    var checked := Checked(ch, env, d);
    assert checked.rest == env.normalRest(d.rest) && checked.schedulerTrust == d.schedulerTrust;
    assert checked.scheduler == if "scheduler" in st.actual then Switch(st, "scheduler") else d.scheduler;
  }

  /** An accepted document is adjusted to just what the flags say, and the file where they say
      nothing. */
  lemma CommandLineDecides(st: State, env: Env, d: Doc)
    requires Lawful(env) && Accepts(ChoicesOf(st, env), env, d)
    ensures AsTyped(st, env, d, Adjusted(ChoicesOf(st, env), env, d))
  {
    var ch := ChoicesOf(st, env);
    var checked := Checked(ch, env, d);
    var live := Finished(ch, env, Vetted(env, checked));
    assert Adjusted(ch, env, d) == live;
    SwitchesDecided(st, env, d, live);
    RelayDecided(st, env, d, live);
    assert live.logger == WithLogger(ch, env, d.logger);
    LogDecided(st, env, d.logger);
    assert live.projectTrust == Or(TrustChoice(ch, env), d.projectTrust);
    assert live.schedulerTrust == env.schedulerTrust(d.schedulerTrust).value;
  }

  lemma SwitchesDecided(st: State, env: Env, d: Doc, live: Doc)
    requires live == Finished(ChoicesOf(st, env), env, Vetted(env, Checked(ChoicesOf(st, env), env, d)))
    ensures SwitchesAsTyped(st, d, live)
  {
    var ch := ChoicesOf(st, env);
    var flagged := WithFlags(ch, d);
    assert SwitchesAsTyped(st, d, flagged);
    assert SwitchesAsTyped(st, d, Checked(ch, env, d));
  }

  lemma RelayDecided(st: State, env: Env, d: Doc, live: Doc)
    requires Lawful(env)
    requires live == Finished(ChoicesOf(st, env), env, Vetted(env, Checked(ChoicesOf(st, env), env, d)))
    ensures RelayAsTyped(st, env, d, live)
  {
    var ch := ChoicesOf(st, env);
    var checked := Checked(ch, env, d);
    assert checked.swarmHost == env.trim(d.swarmHost);
    HostDecided(env, Str(st, "swarm-host"), d.swarmHost);
    TokenDecided(env, Str(st, "swarm-pairing-token"), d.pairingTokens);
    assert live.pairingTokens == TrimAll(env, if ch.token != "" then d.pairingTokens + [ch.token] else d.pairingTokens);
  }

  lemma HostDecided(env: Env, flag: string, host: string)
    requires Lawful(env)
    ensures FirstNonEmpty(env, env.trim(flag), EffectiveHost(env, env.trim(host)))
         == if env.trim(flag) != "" then env.trim(flag)
            else if env.trim(host) != "" then env.trim(host) else env.defaultHost
  {
  }

  lemma TokenDecided(env: Env, flag: string, tokens: seq<string>)
    requires Lawful(env)
    ensures var token := FirstNonEmpty(env, env.trim(flag), env.pairing);
            && (token != "" <==> env.trim(flag) != "" || env.trim(env.pairing) != "")
            && (token != "" ==>
                  env.trim(token) == if env.trim(flag) != "" then env.trim(flag) else env.trim(env.pairing))
  {
  }

  lemma LogDecided(st: State, env: Env, file: Logger)
    ensures LogAsTyped(st, env, file, WithLogger(ChoicesOf(st, env), env, file))
  {
  }

  /** The token a second application appends. */
  function Appended(ch: Choices, env: Env): seq<string> {
    if ch.token == "" then [] else [env.trim(ch.token)]
  }

  lemma AdjustedHost(env: Env, flag: string, host: string)
    requires Lawful(env) && env.trim(flag) == flag
    ensures var h := FirstNonEmpty(env, flag, EffectiveHost(env, env.trim(host)));
            FirstNonEmpty(env, flag, EffectiveHost(env, env.trim(h))) == h
  {
  }

  lemma AdjustedTokens(ch: Choices, env: Env, tokens: seq<string>)
    requires Lawful(env)
    ensures var added := if ch.token != "" then [ch.token] else [];
            var once := TrimAll(env, tokens + added);
            && TrimAll(env, once + added) == once + Appended(ch, env)
            && forall t :: t in Appended(ch, env) ==> t in once
  {
    var added := if ch.token != "" then [ch.token] else [];
    var once := TrimAll(env, tokens + added);
    assert TrimAll(env, once + added) == once + Appended(ch, env);
    if added != [] {
      assert once[|tokens|] == env.trim(ch.token);
    }
  }

  /** Every choice that was typed is in the document. */
  predicate Settled(ch: Choices, env: Env, d: Doc) {
    && (ch.http.Some? ==> d.http == ch.http)
    && (ch.gateway.Some? ==> d.gateway == ch.gateway.value)
    && (ch.swarm.Some? ==> d.swarm == ch.swarm.value)
    && (ch.scheduler.Some? ==> d.scheduler == ch.scheduler.value)
    && (ch.insecure ==> d.swarmInsecure)
    && (ch.autoDiscovery.Some? ==> d.autoDiscovery == ch.autoDiscovery)
    && (TrustChoice(ch, env).Some? ==> d.projectTrust == TrustChoice(ch, env).value)
  }

  lemma AcceptedIsSettled(ch: Choices, env: Env, d: Doc)
    requires Accepts(ch, env, d)
    ensures Settled(ch, env, Adjusted(ch, env, d))
  {
    var flagged := WithFlags(ch, d);
    assert Settled(ch, env, WithTrust(TrustChoice(ch, env), flagged));
    assert Settled(ch, env, Checked(ch, env, d));
  }

  function WithToken(ch: Choices, d: Doc): Doc {
    d.(pairingTokens := if ch.token != "" then d.pairingTokens + [ch.token] else d.pairingTokens)
  }

  lemma SettledOnlyGainsTheToken(ch: Choices, env: Env, d: Doc)
    requires Settled(ch, env, d)
    ensures WithTrust(TrustChoice(ch, env), WithFlags(ch, d)) == WithToken(ch, d)
  {
    assert WithSwitches(ch, d) == d;
    assert WithTyped(ch, d) == WithToken(ch, d);
  }

  /** Normalizing the settings that are not modelled once more changes nothing. */
  predicate RestSettles(env: Env, d: Doc) {
    env.normalRest(env.normalRest(d.rest)) == env.normalRest(d.rest)
  }

  /** Applying the overrides to an adjusted document is accepted again and changes nothing but the
      pairing tokens, where a token that is already there is listed once more. */
  lemma AdjustTwice(ch: Choices, env: Env, d: Doc)
    requires Lawful(env) && env.trim(ch.swarmHost) == ch.swarmHost
    requires Accepts(ch, env, d) && RestSettles(env, d)
    ensures var once := Adjusted(ch, env, d);
            && Accepts(ch, env, once)
            && Adjusted(ch, env, once) == once.(pairingTokens := once.pairingTokens + Appended(ch, env))
            && forall t :: t in Appended(ch, env) ==> t in once.pairingTokens
  {
    var checked := Checked(ch, env, d);
    var once := Finished(ch, env, Vetted(env, checked));
    assert Adjusted(ch, env, d) == once;
    assert SettledTrust(env, once.schedulerTrust);
    assert TrustRefused(ch, env, once) == TrustRefused(ch, env, d);
    AcceptedIsSettled(ch, env, d);
    SettledOnlyGainsTheToken(ch, env, once);
    var again := Normalized(env, WithToken(ch, once));
    assert Checked(ch, env, once) == again;
    var flagged := WithTrust(TrustChoice(ch, env), WithFlags(ch, d));
    AdjustedHost(env, ch.swarmHost, flagged.swarmHost);
    AdjustedTokens(ch, env, d.pairingTokens);
    assert flagged.pairingTokens == d.pairingTokens + if ch.token != "" then [ch.token] else [];
    assert WithToken(ch, once).pairingTokens == once.pairingTokens + if ch.token != "" then [ch.token] else [];
    assert again.pairingTokens == once.pairingTokens + Appended(ch, env);
    assert again.rest == checked.rest && again.scheduler == checked.scheduler;
    assert WithLogger(ch, env, once.logger) == once.logger;
  }

  /** The same of the command line as it was typed. */
  lemma CommandLineTwice(st: State, env: Env, d: Doc)
    requires Lawful(env) && RestSettles(env, d)
    requires Accepts(ChoicesOf(st, env), env, d)
    ensures var ch := ChoicesOf(st, env);
            var once := Adjusted(ch, env, d);
            && Accepts(ch, env, once)
            && Adjusted(ch, env, once) == once.(pairingTokens := once.pairingTokens + Appended(ch, env))
            && forall t :: t in Appended(ch, env) ==> t in once.pairingTokens
  {
    ChoicesAreTrimmed(st, env);
    AdjustTwice(ChoicesOf(st, env), env, d);
  }

  // ----- the addresses among the rest -----

  predicate IsSlash(c: char) {
    c == '/'
  }

  /** SwarmConfig.Normalize on the URL of an upstream or of a parent relay. */
  function TrimUrl(url: string, space: char -> bool): string {
    TrimRight(Trim(url, space), IsSlash)
  }

  /** An address settles at once exactly if no white space is left at its end behind the slashes
      that were taken off. */
  lemma UrlSettles(url: string, space: char -> bool)
    ensures TrimUrl(TrimUrl(url, space), space) == TrimUrl(url, space) <==> Trimmed(TrimUrl(url, space), space)
  {
    var once := TrimUrl(url, space);
    TrimRightIs(Trim(url, space), IsSlash);
    TrimIsTrimmed(once, space);
    TrimRightIs(Trim(once, space), IsSlash);
  }

  lemma UrlThatNeedsTwo()
    ensures var space := (c: char) => c == ' ';
            TrimUrl("x/ /", space) == "x/ " && TrimUrl("x/ ", space) == "x"
  {
  }

  // ----- a run of reloads -----

  /** The file watcher: a document the overrides accept becomes the live one, any other leaves
      the live one alone. */
  function LiveAfter(ch: Choices, env: Env, live: Doc, files: seq<Doc>): Doc
    decreases |files|
  {
    if files == [] then live
    else LiveAfter(ch, env, if Accepts(ch, env, files[0]) then Adjusted(ch, env, files[0]) else live, files[1..])
  }

  /** The newest document that was accepted. */
  function Newest(ch: Choices, env: Env, boot: Doc, files: seq<Doc>): Doc {
    if files == [] then boot
    else
      var last := files[|files| - 1];
      if Accepts(ch, env, last) then last else Newest(ch, env, boot, files[..|files| - 1])
  }

  lemma {:induction false} LiveAfterAppend(ch: Choices, env: Env, live: Doc, files: seq<Doc>, file: Doc)
    ensures LiveAfter(ch, env, live, files + [file])
         == if Accepts(ch, env, file) then Adjusted(ch, env, file) else LiveAfter(ch, env, live, files)
    decreases |files|
  {
    if files == [] {
      assert [file][1..] == [];
    } else {
      assert (files + [file])[1..] == files[1..] + [file];
      var next := if Accepts(ch, env, files[0]) then Adjusted(ch, env, files[0]) else live;
      LiveAfterAppend(ch, env, next, files[1..], file);
    }
  }

  /** Over any sequence of reloads the live document is the newest accepted one with the
      operator's choices: a reload never takes a typed switch away, and never brings one back
      that the file does not carry. */
  lemma {:induction false} ReloadsKeepTheCommandLine(ch: Choices, env: Env, boot: Doc, files: seq<Doc>)
    ensures var live := LiveAfter(ch, env, Adjusted(ch, env, boot), files);
            && live == Adjusted(ch, env, Newest(ch, env, boot, files))
            && KeepsSwitches(ch, env, Newest(ch, env, boot, files), live)
    decreases |files|
  {
    AdjustKeepsSwitches(ch, env, Newest(ch, env, boot, files));
    if files != [] {
      var init, last := files[..|files| - 1], files[|files| - 1];
      assert files == init + [last];
      LiveAfterAppend(ch, env, Adjusted(ch, env, boot), init, last);
      ReloadsKeepTheCommandLine(ch, env, boot, init);
    }
  }

  lemma {:induction false} NewestIsAccepted(ch: Choices, env: Env, boot: Doc, files: seq<Doc>)
    requires Accepts(ch, env, boot)
    ensures Accepts(ch, env, Newest(ch, env, boot, files))
  {
    if files != [] {
      NewestIsAccepted(ch, env, boot, files[..|files| - 1]);
    }
  }

  /** And so, setting by setting, the live document is what the flags say of that one. */
  lemma ReloadsKeepEverySetting(st: State, env: Env, boot: Doc, files: seq<Doc>)
    requires Lawful(env) && Accepts(ChoicesOf(st, env), env, boot)
    ensures var ch := ChoicesOf(st, env);
            AsTyped(st, env, Newest(ch, env, boot, files), LiveAfter(ch, env, Adjusted(ch, env, boot), files))
  {
    var ch := ChoicesOf(st, env);
    ReloadsKeepTheCommandLine(ch, env, boot, files);
    NewestIsAccepted(ch, env, boot, files);
    CommandLineDecides(st, env, Newest(ch, env, boot, files));
  }
}
