/** The command line of `coddy serve` across processes: how a process reads it, what the daemon's
    record keeps of it, and what a restart starts with. */
module ServeControl {
  import opened Options
  import opened Flags
  import opened Restart
  import opened ServeFlags
  import opened Overrides

  const VERBS: set<string> := {"install", "uninstall", "status", "stop", "restart", "set-password"}

  datatype Reading =
    | Verb(name: string)         // a control verb, before any flag is parsed
    | Usage                      // -h: the usage text, and no error
    | BadFlag(error: Error)
    | UnknownVerb(word: string)  // serve takes no positional arguments
    | Run(st: State)

  /** The front of runServe. */
  function ReadServe(args: seq<string>): Reading {
    if args != [] && args[0] in VERBS then Verb(args[0])
    else
      match Parse(SERVE, Fresh(SERVE), args)
      case Failed(e) => if e.ErrHelp? then Usage else BadFlag(e)
      case Done(st, rest) => if rest != [] then UnknownVerb(rest[0]) else Run(st)
  }

  lemma HelpIsNoFlag()
    ensures "h" !in SERVE.flags && "help" !in SERVE.flags
  {
    assert "h" !in NAMES && "help" !in NAMES;
  }

  /** A control verb is one only in front; behind it nothing is read. */
  lemma VerbIsRead(verb: string, rest: seq<string>)
    ensures verb in VERBS <==> ReadServe([verb] + rest) == Verb(verb)
  {
  }

  /** The request for help is answered with the usage text, in each of its spellings. */
  lemma HelpIsUsage(twoDashes: bool, name: string, rest: seq<string>)
    requires name == "h" || name == "help"
    ensures ReadServe([AsArgument(twoDashes, name, None)] + rest) == Usage
  {
    var arg := AsArgument(twoDashes, name, None);
    HelpIsNoFlag();
    TypedParts(twoDashes, name, None);
    FlagIsRead(SERVE, Fresh(SERVE), twoDashes, name, None, rest);
    NoVerb(arg);
  }

  /** Any other flag that is not declared is an error that names it. */
  lemma UnknownFlagIsNamed(twoDashes: bool, name: string, value: Option<string>, rest: seq<string>)
    requires name != "" && name[0] != '-' && '=' !in name && name !in SERVE.flags && name != "h" && name != "help"
    ensures ReadServe([AsArgument(twoDashes, name, value)] + rest) == BadFlag(NotDefined(name))
  {
    TypedParts(twoDashes, name, value);
    FlagIsRead(SERVE, Fresh(SERVE), twoDashes, name, value, rest);
    NoVerb(AsArgument(twoDashes, name, value));
  }

  /** A word that is no verb is refused by name, also behind "--". */
  lemma WordIsNoVerb(word: string, rest: seq<string>)
    requires (|word| < 2 || word[0] != '-') && word !in VERBS
    ensures ReadServe([word] + rest) == UnknownVerb(word)
    ensures ReadServe(["--"] + ([word] + rest)) == UnknownVerb(word)
  {
    var args := ["--"] + ([word] + rest);
    assert args[1..] == [word] + rest;
    assert ParseOne(SERVE, Fresh(SERVE), [word] + rest) == Stop([word] + rest);
    assert ParseOne(SERVE, Fresh(SERVE), args) == Stop([word] + rest);
    NoVerb("--");
  }

  /** Without arguments it runs on the defaults. */
  lemma NothingIsRead()
    ensures ReadServe([]) == Run(Fresh(SERVE))
  {
  }

  lemma NoVerb(arg: string)
    requires arg != "" && arg[0] == '-'
    ensures arg !in VERBS
  {
    if arg in VERBS {
      VerbsAreWords(arg);
    }
  }

  /** The command line a running `coddy serve` hands to the process it starts. */
  function Handed(args: seq<string>): seq<string> {
    ServeIsWellFormed();
    Respawn(SERVE, DAEMON_NAMES, args)
  }

  lemma VerbsAreWords(word: string)
    requires word in VERBS
    ensures word != "" && word[0] != '-'
  {
  }

  lemma HandedIsNoVerb(args: seq<string>)
    ensures Handed(args) != [] ==> Handed(args)[0] !in VERBS
  {
    ServeIsWellFormed();
    if Handed(args) != [] {
      RespawnPrintsFlags(SERVE, DAEMON_NAMES, args, 0);
      if Handed(args)[0] in VERBS {
        VerbsAreWords(Handed(args)[0]);
      }
    }
  }

  /** The daemon is brought back as it was: for every command line `coddy serve` accepts, every
      process down the line - dispatcher, worker, restarted dispatcher - reads the operator's
      options, without -d and --daemon, and never a verb. */
  lemma EveryProcessReadsTheOperatorsOptions(args: seq<string>, n: nat)
    requires ReadServe(args).Run? && n >= 1
    ensures (ServeIsWellFormed(); Generation(SERVE, DAEMON_NAMES, args, n)) == Handed(args)
    ensures var r := ReadServe(Handed(args));
            r.Run? && SameBut(SERVE, DAEMON_NAMES, ReadServe(args).st, r.st)
    ensures Handed(Handed(args)) == Handed(args)
  {
    ServeIsWellFormed();
    ServeDaemonIsIsolated();
    EveryGenerationHasTheSameOptions(SERVE, DAEMON_NAMES, args, n);
    RespawnIsFixed(SERVE, DAEMON_NAMES, args);
    HandedIsNoVerb(args);
  }

  lemma OnlyTheDaemonCell(c: string)
    requires Bound(SERVE, DAEMON_NAMES, c)
    ensures c == "daemon"
  {
    var n :| n in DAEMON_NAMES && n in SERVE.flags && SERVE.flags[n].cell == c;
    assert c == CellOf(n);
  }

  /** A flag that is not about the daemon is typed, and has its value, in both states alike. */
  lemma SameReading(before: State, after: State, name: string)
    requires SameBut(SERVE, DAEMON_NAMES, before, after)
    requires name !in DAEMON_NAMES
    ensures Typed(before, name) == Typed(after, name)
    ensures Switch(before, name) == Switch(after, name) && Str(before, name) == Str(after, name)
    ensures name in before.actual <==> name in after.actual
  {
    if Bound(SERVE, DAEMON_NAMES, name) {
      OnlyTheDaemonCell(name);
    }
  }

  predicate SameSwitch(before: State, after: State, name: string) {
    Typed(before, name) == Typed(after, name) && Switch(before, name) == Switch(after, name)
  }

  predicate SameText(before: State, after: State, name: string) {
    Str(before, name) == Str(after, name) && (name in before.actual <==> name in after.actual)
  }

  lemma SameSwitches(before: State, after: State)
    requires SameBut(SERVE, DAEMON_NAMES, before, after)
    ensures SameSwitch(before, after, "http") && SameSwitch(before, after, "gateway")
    ensures SameSwitch(before, after, "swarm") && SameSwitch(before, after, "scheduler")
    ensures SameSwitch(before, after, "swarm-allow-insecure") && SameSwitch(before, after, "skills-auto-discovery")
  {
    SameReading(before, after, "http");
    SameReading(before, after, "gateway");
    SameReading(before, after, "swarm");
    SameReading(before, after, "scheduler");
    SameReading(before, after, "swarm-allow-insecure");
    SameReading(before, after, "skills-auto-discovery");
  }

  lemma SameTexts(before: State, after: State)
    requires SameBut(SERVE, DAEMON_NAMES, before, after)
    ensures SameText(before, after, "swarm-pairing-token") && SameText(before, after, "mcp-project-trust")
    ensures SameText(before, after, "log-level") && SameText(before, after, "log-output")
    ensures SameText(before, after, "log-file") && SameText(before, after, "log-format")
    ensures SameText(before, after, "swarm-host")
  {
    SameReading(before, after, "swarm-pairing-token");
    SameReading(before, after, "mcp-project-trust");
    SameReading(before, after, "log-level");
    SameReading(before, after, "log-output");
    SameReading(before, after, "log-file");
    SameReading(before, after, "log-format");
    SameReading(before, after, "swarm-host");
  }

  lemma SameChoices(before: State, after: State, env: Env)
    requires SameBut(SERVE, DAEMON_NAMES, before, after)
    ensures ChoicesOf(before, env) == ChoicesOf(after, env)
  {
    SameSwitches(before, after);
    SameTexts(before, after);
  }

  /** The operator's pairing token: the flag's, or else the environment's. */
  function Token(st: State, env: Env): string {
    FirstNonEmpty(env, env.trim(Str(st, "swarm-pairing-token")), env.pairing)
  }

  lemma EnvironmentGivesTheToken(st: State, env: Env, pairing: string)
    ensures ChoicesOf(st, env.(pairing := pairing)) == ChoicesOf(st, env).(token := Token(st, env.(pairing := pairing)))
  {
  }

  lemma PairingIsOnlyAChoice(ch: Choices, env: Env, pairing: string, d: Doc)
    ensures Adjusted(ch, env.(pairing := pairing), d) == Adjusted(ch, env, d)
    ensures Accepts(ch, env.(pairing := pairing), d) <==> Accepts(ch, env, d)
  {
    var env' := env.(pairing := pairing);
    var checked := Checked(ch, env, d);
    assert Checked(ch, env', d) == checked by {
      TrimsAlike(env, env', WithTrust(TrustChoice(ch, env), WithFlags(ch, d)).pairingTokens);
    }
    assert Vetted(env', checked) == Vetted(env, checked);
  }

  lemma {:induction false} TrimsAlike(a: Env, b: Env, tokens: seq<string>)
    requires a.trim == b.trim
    ensures TrimAll(a, tokens) == TrimAll(b, tokens)
  {
    if tokens != [] {
      TrimsAlike(a, b, tokens[1..]);
    }
  }

  /** So every process down the line, also one whose environment has another pairing token in it,
      has the choices of the process the operator started, but for that token, and makes the same
      configuration of every document where the two come to the same token. */
  lemma EveryProcessAdjustsAlike(args: seq<string>, n: nat, env: Env, pairing: string, d: Doc)
    requires ReadServe(args).Run? && n >= 1
    ensures (ServeIsWellFormed(); ReadServe(Generation(SERVE, DAEMON_NAMES, args, n)).Run?)
    ensures var first, env' := ReadServe(args).st, env.(pairing := pairing);
            var later := (ServeIsWellFormed(); ReadServe(Generation(SERVE, DAEMON_NAMES, args, n)).st);
            var ch, ch' := ChoicesOf(first, env), ChoicesOf(later, env');
            && ch' == ch.(token := Token(first, env'))
            && (Token(first, env') == Token(first, env) ==>
                  Adjusted(ch', env', d) == Adjusted(ch, env, d) && (Accepts(ch', env', d) <==> Accepts(ch, env, d)))
  {
    EveryProcessReadsTheOperatorsOptions(args, n);
    var first, later := ReadServe(args).st, ReadServe(Handed(args)).st;
    SameChoices(first, later, env.(pairing := pairing));
    EnvironmentGivesTheToken(first, env, pairing);
    EnvironmentGivesTheToken(first, env, env.pairing);
    PairingIsOnlyAChoice(ChoicesOf(first, env), env, pairing, d);
  }
}
