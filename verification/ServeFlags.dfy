/** The flag set of `coddy serve`, and the daemon that is brought back with it. */
module ServeFlags {
  import opened Options
  import opened Flags
  import opened Restart

  /** The names runServe declares. */
  const NAMES: set<string> := {
    "H", "P", "auth-token", "config", "cwd", "d",
    "daemon", "dry-run", "gateway", "home", "host", "http",
    "log-file", "log-format", "log-level", "log-output", "mcp-project-trust", "port",
    "scheduler", "session-id", "sessions-dir", "skills-auto-discovery", "swarm", "swarm-allow-insecure",
    "swarm-auth-token", "swarm-host", "swarm-pairing-token", "swarm-port", "t", "test-config"}

  /** The variable a name is bound to: four names are aliases. */
  function CellOf(name: string): string {
    match name
    case "H" => "host"
    case "P" => "port"
    case "d" => "daemon"
    case "t" => "test-config"
    case _ => name
  }

  function DefaultOf(cell: string): Value {
    match cell
    case "http" => BoolV(true)
    case "skills-auto-discovery" => BoolV(true)
    case "daemon" => BoolV(false)
    case "dry-run" => BoolV(false)
    case "gateway" => BoolV(false)
    case "scheduler" => BoolV(false)
    case "swarm" => BoolV(false)
    case "swarm-allow-insecure" => BoolV(false)
    case "test-config" => BoolV(false)
    case "mcp-project-trust" => StringV("ask")
    case _ => StringV("")
  }

  function KindOf(v: Value): Kind {
    match v
    case BoolV(_) => BoolFlag
    case StringV(_) => StringFlag
    case IntV(_) => IntFlag
  }

  /** Declaring names, each bound to the variable cellOf gives it. */
  function Declared(names: set<string>, cellOf: string -> string, defaultOf: string -> Value): Decls {
    Decls(
      map n | n in names :: Flag(KindOf(defaultOf(cellOf(n))), cellOf(n)),
      map c | c in (set n | n in names :: cellOf(n)) :: defaultOf(c),
      ParseBool,
      (t: string) => None)
  }

  /** The flag set of `coddy serve`. */
  const SERVE: Decls := Declared(NAMES, CellOf, DefaultOf)

  predicate NameOk(n: string) {
    n != "" && n[0] != '-' && '=' !in n
  }

  lemma DeclaredIsWellFormed(names: set<string>, cellOf: string -> string, defaultOf: string -> Value)
    requires forall n :: n in names ==> NameOk(n)
    requires forall c :: !defaultOf(c).IntV?
    ensures WellFormed(Declared(names, cellOf, defaultOf))
  {
    var d := Declared(names, cellOf, defaultOf);
    assert ParseBool("true") == Some(true) && ParseBool("false") == Some(false);
    forall n | n in d.flags
      ensures d.flags[n].cell in d.defaults
    {
      assert cellOf(n) in d.defaults;
    }
  }

  lemma NamesAreOk(n: string)
    requires n in NAMES
    ensures NameOk(n)
  {
  }

  lemma DeclaredIsIsolated(names: set<string>, cellOf: string -> string, defaultOf: string -> Value, skip: set<string>)
    requires forall m, n :: m in skip && cellOf(n) == cellOf(m) ==> n in skip
    ensures Isolated(Declared(names, cellOf, defaultOf), skip)
  {
  }

  lemma DaemonIsItsOwn(m: string, n: string)
    requires m in DAEMON_NAMES && CellOf(n) == CellOf(m)
    ensures n in DAEMON_NAMES
  {
  }

  /** Every flag of `coddy serve` is bound to a variable of its kind. */
  lemma ServeIsWellFormed()
    ensures WellFormed(SERVE)
  {
    forall n | n in NAMES
      ensures NameOk(n)
    {
      NamesAreOk(n);
    }
    DeclaredIsWellFormed(NAMES, CellOf, DefaultOf);
  }

  /** -d and --daemon share their variable with no other flag. */
  lemma ServeDaemonIsIsolated()
    ensures Isolated(SERVE, DAEMON_NAMES)
  {
    forall m, n | m in DAEMON_NAMES && CellOf(n) == CellOf(m)
      ensures n in DAEMON_NAMES
    {
      DaemonIsItsOwn(m, n);
    }
    DeclaredIsIsolated(NAMES, CellOf, DefaultOf, DAEMON_NAMES);
  }

  /** The long name a short one stands for. */
  predicate Abbreviates(short: string, long: string) {
    (short, long) in {("H", "host"), ("P", "port"), ("d", "daemon"), ("t", "test-config")}
  }

  lemma CellIsLongName(n: string)
    ensures CellOf(n) == n || Abbreviates(n, CellOf(n))
    ensures forall long :: Abbreviates(n, long) ==> CellOf(n) == long
  {
  }

  lemma LongIsNotShort(n: string, long: string)
    requires Abbreviates(n, long)
    ensures !Abbreviates(long, n) && CellOf(long) == long
  {
  }

  /** Two flags are bound to one variable exactly if one is short for the other. */
  lemma AliasesAreThePairs(m: string, n: string)
    ensures CellOf(m) == CellOf(n) <==> m == n || Abbreviates(m, n) || Abbreviates(n, m)
  {
    CellIsLongName(m);
    CellIsLongName(n);
    if Abbreviates(m, n) {
      LongIsNotShort(m, n);
    }
    if Abbreviates(n, m) {
      LongIsNotShort(n, m);
    }
    if Abbreviates(m, CellOf(m)) && Abbreviates(n, CellOf(n)) && CellOf(m) == CellOf(n) {
      ShortNamesDiffer(m, n, CellOf(m));
    }
  }

  lemma ShortNamesDiffer(m: string, n: string, long: string)
    requires Abbreviates(m, long) && Abbreviates(n, long)
    ensures m == n
  {
  }

  const BOOLEANS: set<string> := {
    "http", "gateway", "swarm", "scheduler", "swarm-allow-insecure", "skills-auto-discovery",
    "d", "daemon", "t", "test-config", "dry-run"}

  lemma KindOfName(n: string)
    ensures DefaultOf(CellOf(n)).BoolV? <==> n in BOOLEANS
    ensures DefaultOf(CellOf(n)) == BoolV(true) <==> n in {"http", "skills-auto-discovery"}
    ensures DefaultOf(CellOf(n)).StringV? ==> DefaultOf(CellOf(n)).s == if n == "mcp-project-trust" then "ask" else ""
    ensures !DefaultOf(CellOf(n)).IntV?
  {
  }

  /** What `coddy serve` runs with if nothing is typed: the HTTP API and skill discovery are on, project
      files are asked about, every other switch is off and every other text empty. */
  lemma NothingTyped(n: string)
    requires n in NAMES
    ensures n in SERVE.flags && SERVE.flags[n].cell in SERVE.defaults
    ensures SERVE.defaults[SERVE.flags[n].cell]
         == if n in BOOLEANS then BoolV(n in {"http", "skills-auto-discovery"})
            else StringV(if n == "mcp-project-trust" then "ask" else "")
    ensures SERVE.flags[n].kind == if n in BOOLEANS then BoolFlag else StringFlag
  {
    KindOfName(n);
    DeclaredFlag(NAMES, CellOf, DefaultOf, n);
  }

  lemma DeclaredFlag(names: set<string>, cellOf: string -> string, defaultOf: string -> Value, n: string)
    requires n in names
    ensures var d := Declared(names, cellOf, defaultOf);
            && n in d.flags && d.flags[n].cell == cellOf(n) && d.flags[n].kind == KindOf(defaultOf(cellOf(n)))
            && cellOf(n) in d.defaults && d.defaults[cellOf(n)] == defaultOf(cellOf(n))
  {
  }
}
