/** Go's flag package as the commands use it (flag.FlagSet with ContinueOnError): several names
    may be bound to one variable, `actual` holds the names that were typed, and Parse stops at
    the first argument that is not a flag. */
module Flags {
  import opened Options
  import opened Text

  datatype Kind = BoolFlag | StringFlag | IntFlag

  datatype Value = BoolV(b: bool) | StringV(s: string) | IntV(n: int)

  /** A declared flag: its kind and the variable (cell) it is bound to. Aliases share a cell. */
  datatype Flag = Flag(kind: Kind, cell: string)

  /** A flag set as declared; readBool and readInt are strconv.ParseBool and strconv.ParseInt. */
  datatype Decls = Decls(
    flags: map<string, Flag>,
    defaults: map<string, Value>,
    readBool: string -> Option<bool>,
    readInt: string -> Option<int>)

  /** The variables and the typed names of a flag set. */
  datatype State = State(cells: map<string, Value>, actual: set<string>)

  datatype Error =
    | ErrHelp
    | BadSyntax(arg: string)
    | NotDefined(name: string)
    | BadValue(name: string)
    | NeedsArgument(name: string)

  predicate HasKind(v: Value, k: Kind) {
    match k
    case BoolFlag => v.BoolV?
    case StringFlag => v.StringV?
    case IntFlag => v.IntV?
  }

  /** Reading the printed value gives the value back. */
  predicate ReadsBack(d: Decls, v: Value) {
    v.IntV? ==> d.readInt(Itoa(v.n)) == Some(v.n)
  }

  /** What the flag package demands of a declaration (a name that begins with '-' or holds '='
      panics), one kind to a cell, and readers that read back what they read. */
  ghost predicate WellFormed(d: Decls) {
    && (forall n :: n in d.flags ==> n != "" && n[0] != '-' && '=' !in n)
    && (forall n :: n in d.flags ==>
          d.flags[n].cell in d.defaults && HasKind(d.defaults[d.flags[n].cell], d.flags[n].kind))
    && (forall c :: c in d.defaults ==> ReadsBack(d, d.defaults[c]))
    && d.readBool(FormatBool(true)) == Some(true) && d.readBool(FormatBool(false)) == Some(false)
    && (forall t :: d.readInt(t).Some? ==> ReadsBack(d, IntV(d.readInt(t).value)))
  }

  function Fresh(d: Decls): State {
    State(d.defaults, {})
  }

  /** What holds of a flag set after any parses: a variable no typed flag is bound to still has
      its default. */
  ghost predicate Consistent(d: Decls, st: State) {
    && st.cells.Keys == d.defaults.Keys
    && (forall n :: n in st.actual ==> n in d.flags)
    && (forall n :: n in d.flags ==> d.flags[n].cell in st.cells && HasKind(st.cells[d.flags[n].cell], d.flags[n].kind))
    && (forall c :: c in st.cells ==> ReadsBack(d, st.cells[c]))
    && (forall c :: c in st.cells && st.cells[c] != d.defaults[c] ==> Bound(d, st.actual, c))
  }

  /** Some name of the set is bound to the cell. */
  ghost predicate Bound(d: Decls, names: set<string>, cell: string) {
    exists n :: n in names && n in d.flags && d.flags[n].cell == cell
  }

  // ----- the order of Visit -----

  /** Lexical order. */
  predicate Less(a: string, b: string) {
    b != "" && (a == "" || a[0] < b[0] || (a[0] == b[0] && Less(a[1..], b[1..])))
  }

  lemma {:induction false} LessIsTotal(a: string, b: string)
    ensures Less(a, b) || Less(b, a) || a == b
    ensures !(Less(a, b) && Less(b, a))
  {
    if a != "" && b != "" {
      LessIsTotal(a[1..], b[1..]);
      assert a == [a[0]] + a[1..] && b == [b[0]] + b[1..];
    }
  }

  lemma {:induction false} LessIsTransitive(a: string, b: string, c: string)
    requires Less(a, b) && Less(b, c)
    ensures Less(a, c)
  {
    if a != "" && a[0] == b[0] == c[0] {
      LessIsTransitive(a[1..], b[1..], c[1..]);
    }
  }

  predicate IsLeast(m: string, names: set<string>) {
    m in names && forall n :: n in names && n != m ==> Less(m, n)
  }

  lemma {:induction false} LeastExists(names: set<string>)
    requires names != {}
    ensures exists m :: IsLeast(m, names)
  {
    var x :| x in names;
    if names == {x} {
      assert IsLeast(x, names);
    } else {
      var others := names - {x};
      LeastExists(others);
      var m :| IsLeast(m, others);
      LessIsTotal(x, m);
      if Less(x, m) {
        forall n | n in names && n != x
          ensures Less(x, n)
        {
          if n != m {
            LessIsTransitive(x, m, n);
          }
        }
        assert IsLeast(x, names);
      } else {
        assert IsLeast(m, names);
      }
    }
  }

  lemma LeastIsUnique(names: set<string>, a: string, b: string)
    requires IsLeast(a, names) && IsLeast(b, names)
    ensures a == b
  {
    LessIsTotal(a, b);
  }

  /** The typed names as Visit walks them: in lexical order. */
  function Sorted(names: set<string>): (r: seq<string>)
    ensures forall n :: n in r <==> n in names
  {
    if names == {} then []
    else
      LeastExists(names);
      assert forall a, b :: IsLeast(a, names) && IsLeast(b, names) ==> a == b by {
        forall a, b | IsLeast(a, names) && IsLeast(b, names)
          ensures a == b
        {
          LeastIsUnique(names, a, b);
        }
      }
      var m :| IsLeast(m, names);
      [m] + Sorted(names - {m})
  }

  /** a and b first differ at i, where a has the smaller character. */
  predicate FirstDiffers(a: string, b: string, i: nat) {
    i < |a| && i < |b| && a[..i] == b[..i] && a[i] < b[i]
  }

  lemma {:induction false} LessIsLexical(a: string, b: string)
    ensures Less(a, b) <==> (a != b && a <= b) || exists i: nat :: FirstDiffers(a, b, i)
  {
    if a != "" && b != "" {
      if a[0] < b[0] {
        assert FirstDiffers(a, b, 0);
      }
      if a[0] == b[0] {
        LessIsLexical(a[1..], b[1..]);
        assert a == [a[0]] + a[1..] && b == [b[0]] + b[1..];
        if i: nat :| FirstDiffers(a[1..], b[1..], i) {
          assert a[..i + 1] == [a[0]] + a[1..][..i] && b[..i + 1] == [b[0]] + b[1..][..i];
          assert FirstDiffers(a, b, i + 1);
        }
        if i: nat :| FirstDiffers(a, b, i) {
          assert a[1..][..i - 1] == a[..i][1..] && b[1..][..i - 1] == b[..i][1..];
          assert FirstDiffers(a[1..], b[1..], i - 1);
        }
      }
    }
  }

  /** Visit walks each typed name once, in ascending order. */
  lemma {:induction false} SortedAscends(names: set<string>)
    ensures |Sorted(names)| == |names|
    ensures forall i, j :: 0 <= i < j < |names| ==> Less(Sorted(names)[i], Sorted(names)[j])
  {
    if names != {} {
      var m := Sorted(names)[0];
      assert Sorted(names)[1..] == Sorted(names - {m});
      SortedAscends(names - {m});
      forall j | 0 < j < |names|
        ensures Less(m, Sorted(names)[j])
      {
        assert Sorted(names)[j] == Sorted(names - {m})[j - 1] && Sorted(names)[j] in Sorted(names - {m});
      }
      forall i, j | 0 <= i < j < |names|
        ensures Less(Sorted(names)[i], Sorted(names)[j])
      {
        if i > 0 {
          assert Sorted(names)[i] == Sorted(names - {m})[i - 1] && Sorted(names)[j] == Sorted(names - {m})[j - 1];
        }
      }
    }
  }

  // ----- values -----

  /** The String method of a flag value. */
  function ValueText(v: Value): string {
    match v
    case BoolV(b) => FormatBool(b)
    case StringV(s) => s
    case IntV(n) => Itoa(n)
  }

  /** strconv.ParseBool. */
  function ParseBool(t: string): Option<bool> {
    if t in ["1", "t", "T", "TRUE", "true", "True"] then Some(true)
    else if t in ["0", "f", "F", "FALSE", "false", "False"] then Some(false)
    else None
  }

  function Upper(s: string): string {
    if s == "" then "" else [if 'a' <= s[0] <= 'z' then s[0] - 'a' + 'A' else s[0]] + Upper(s[1..])
  }

  /** A word, its first letter, or either with the first or with all letters in upper case. */
  predicate Spells(t: string, word: string)
    requires word != ""
  {
    t in [word, Upper(word), Upper(word[..1]) + word[1..], word[..1], Upper(word[..1])]
  }

  /** The spellings of a boolean: its digit, or its word. */
  lemma BoolSpellings(t: string, b: bool)
    ensures ParseBool(t) == Some(b) <==> t == Itoa(if b then 1 else 0) || Spells(t, FormatBool(b))
  {
    UpperWords();
    assert Digit(1) == '1' && Digit(0) == '0';
    assert "true"[..1] == "t" && "false"[..1] == "f";
    assert "T" + "true"[1..] == "True" && "F" + "false"[1..] == "False";
  }

  lemma UpperWords()
    ensures Upper("true") == "TRUE" && Upper("t") == "T" && Upper("false") == "FALSE" && Upper("f") == "F"
  {
    assert "true"[1..] == "rue" && "rue"[1..] == "ue" && "ue"[1..] == "e" && "e"[1..] == "";
    assert Upper("e") == "E" && Upper("ue") == "UE" && Upper("rue") == "RUE";
    assert "false"[1..] == "alse" && "alse"[1..] == "lse" && "lse"[1..] == "se" && "se"[1..] == "e";
    assert Upper("se") == "SE" && Upper("lse") == "LSE" && Upper("alse") == "ALSE";
    assert "t"[1..] == "" && "f"[1..] == "";
  }

  /** The Set method of a flag value. */
  function ReadValue(d: Decls, k: Kind, t: string): Option<Value> {
    match k
    case BoolFlag =>
      (match d.readBool(t) case Some(b) => Some(BoolV(b)) case None => None)
    case StringFlag => Some(StringV(t))
    case IntFlag =>
      (match d.readInt(t) case Some(n) => Some(IntV(n)) case None => None)
  }

  lemma ReadPrinted(d: Decls, k: Kind, v: Value)
    requires WellFormed(d) && HasKind(v, k) && ReadsBack(d, v)
    ensures ReadValue(d, k, ValueText(v)) == Some(v)
  {
  }

  // ----- parsing -----

  /** The name and, if an '=' follows it, the value of a flag argument without its dashes. */
  function Cut(s: string): (string, Option<string>) {
    if s == "" then ("", None)
    else if s[0] == '=' then ("", Some(s[1..]))
    else
      var (name, value) := Cut(s[1..]);
      ([s[0]] + name, value)
  }

  lemma {:induction false} CutJoined(name: string, text: string)
    requires '=' !in name
    ensures Cut(name + "=" + text) == (name, Some(text))
  {
    var s := name + "=" + text;
    if name == "" {
      assert s[1..] == text;
    } else {
      CutJoined(name[1..], text);
      assert s[1..] == name[1..] + "=" + text;
      assert s[0] == name[0] && name[0] in name;
      assert name == [name[0]] + name[1..];
    }
  }

  function Assign(d: Decls, st: State, name: string, v: Value): State
    requires name in d.flags
  {
    State(st.cells[d.flags[name].cell := v], st.actual + {name})
  }

  datatype One = Seen(st: State, rest: seq<string>) | Stop(rest: seq<string>) | Fail(error: Error)

  /** flag.parseOne: one flag off the front of the arguments. */
  function ParseOne(d: Decls, st: State, args: seq<string>): (r: One)
    ensures r.Seen? ==> |r.rest| < |args|
    ensures r.Stop? ==> |r.rest| <= |args|
  {
    if args == [] then Stop([])
    else
      var s := args[0];
      if |s| < 2 || s[0] != '-' then Stop(args)
      else if s == "--" then Stop(args[1..])
      else
        var body := if s[1] == '-' then s[2..] else s[1..];
        if body[0] == '-' || body[0] == '=' then Fail(BadSyntax(s))
        else
          var (name, value) := Cut(body);
          if name !in d.flags then Fail(if name == "help" || name == "h" then ErrHelp else NotDefined(name))
          else if d.flags[name].kind.BoolFlag? then
            Accept(d, st, name, if value.Some? then value.value else "true", args[1..])
          else if value.Some? then Accept(d, st, name, value.value, args[1..])
          else if |args| > 1 then Accept(d, st, name, args[1], args[2..])
          else Fail(NeedsArgument(name))
  }

  function Accept(d: Decls, st: State, name: string, text: string, rest: seq<string>): One
    requires name in d.flags
  {
    match ReadValue(d, d.flags[name].kind, text)
    case Some(v) => Seen(Assign(d, st, name, v), rest)
    case None => Fail(BadValue(name))
  }

  lemma {:induction false} CutPlain(name: string)
    requires '=' !in name
    ensures Cut(name) == (name, None)
  {
    if name != "" {
      CutPlain(name[1..]);
      assert name == [name[0]] + name[1..];
    }
  }

  /** A flag as it is typed: one dash or two, its name, and perhaps a value behind "=". */
  function AsArgument(twoDashes: bool, name: string, value: Option<string>): string {
    (if twoDashes then "--" else "-") + name + if value.Some? then "=" + value.value else ""
  }

  lemma TypedParts(twoDashes: bool, name: string, value: Option<string>)
    requires name != "" && name[0] != '-' && '=' !in name
    ensures var s := AsArgument(twoDashes, name, value);
            && |s| >= 2 && s[0] == '-' && s != "--" && (s[1] == '-' <==> twoDashes)
            && var body := if twoDashes then s[2..] else s[1..];
               body != "" && body[0] == name[0] && Cut(body) == (name, value)
  {
    assert name[0] in name;
    var body := name + if value.Some? then "=" + value.value else "";
    var s := AsArgument(twoDashes, name, value);
    if twoDashes {
      assert s == "--" + body && s[2..] == body;
    } else {
      assert s == "-" + body && s[1..] == body;
    }
    if value.Some? {
      CutJoined(name, value.value);
      assert body == name + "=" + value.value;
    } else {
      assert body == name;
      CutPlain(name);
    }
  }

  /** What becomes of a typed flag. One that is not declared is the request for help, or an error. A
      boolean one needs no value; any other takes the next argument if it has none, and there is
      one. A value that does not read is an error. */
  lemma FlagIsRead(d: Decls, st: State, twoDashes: bool, name: string, value: Option<string>, rest: seq<string>)
    requires name != "" && name[0] != '-' && '=' !in name
    ensures var r := ParseOne(d, st, [AsArgument(twoDashes, name, value)] + rest);
            if name !in d.flags then r == Fail(if name in ["help", "h"] then ErrHelp else NotDefined(name))
            else if d.flags[name].kind.BoolFlag? then r == Accept(d, st, name, value.GetOr("true"), rest)
            else if value.Some? then r == Accept(d, st, name, value.value, rest)
            else if rest != [] then r == Accept(d, st, name, rest[0], rest[1..])
            else r == Fail(NeedsArgument(name))
  {
    TypedParts(twoDashes, name, value);
    var args := [AsArgument(twoDashes, name, value)] + rest;
    assert args[1..] == rest;
    assert rest != [] ==> args[1] == rest[0] && args[2..] == rest[1..];
  }

  /** The value goes to the flag's variable, the name among the typed ones, and nothing else moves. */
  lemma AcceptedFlag(d: Decls, st: State, name: string, text: string, rest: seq<string>)
    requires name in d.flags
    ensures var r, v := Accept(d, st, name, text, rest), ReadValue(d, d.flags[name].kind, text);
            if v.None? then r == Fail(BadValue(name))
            else
              && r.Seen? && r.rest == rest
              && r.st.actual == st.actual + {name}
              && r.st.cells.Keys == st.cells.Keys + {d.flags[name].cell}
              && r.st.cells[d.flags[name].cell] == v.value
              && (forall c :: c in st.cells && c != d.flags[name].cell ==> r.st.cells[c] == st.cells[c])
  {
  }

  /** Three dashes, or an "=" where the name should be, are no flag. */
  lemma BadFlagSyntax(d: Decls, st: State, arg: string, rest: seq<string>)
    requires "---" <= arg || "-=" <= arg || "--=" <= arg
    ensures ParseOne(d, st, [arg] + rest) == Fail(BadSyntax(arg))
  {
    assert arg[0] == '-' && |arg| >= 2;
    assert "---" <= arg ==> arg[1] == '-' && arg[2] == '-';
    assert "-=" <= arg ==> arg[1] == '=';
    assert "--=" <= arg ==> arg[1] == '-' && arg[2] == '=';
    assert arg[1] == '-' ==> arg[2..][0] == arg[2];
  }

  datatype Outcome = Done(st: State, rest: seq<string>) | Failed(error: Error)

  /** FlagSet.Parse: the flags it saw, and the arguments it left. */
  function Parse(d: Decls, st: State, args: seq<string>): (r: Outcome)
    ensures r.Done? ==> |r.rest| <= |args|
    decreases |args|
  {
    match ParseOne(d, st, args)
    case Seen(st', rest) => Parse(d, st', rest)
    case Stop(rest) => Done(st, rest)
    case Fail(e) => Failed(e)
  }

  /** The flag set as the commands hold it: Parse changes it in place. */
  class FlagSet {
    const decls: Decls
    var cells: map<string, Value>
    var actual: set<string>
    var args: seq<string>

    function Current(): State
      reads this
    {
      State(cells, actual)
    }

    constructor (d: Decls)
      ensures decls == d && Current() == Fresh(d) && args == []
    {
      decls := d;
      cells, actual, args := d.defaults, {}, [];
    }

    method TakeFlag() returns (seen: bool, err: Option<Error>)
      modifies this
      ensures match ParseOne(decls, old(Current()), old(args))
              case Seen(st, rest) => seen && err == None && Current() == st && args == rest
              case Stop(rest) => !seen && err == None && Current() == old(Current()) && args == rest
              case Fail(e) => !seen && err == Some(e) && Current() == old(Current())
    {
      seen, err := false, None;
      if args == [] {
        return;
      }
      var s := args[0];
      if |s| < 2 || s[0] != '-' {
        return;
      }
      var minuses := 1;
      if s[1] == '-' {
        minuses := 2;
        if |s| == 2 {
          args := args[1..];
          return;
        }
      }
      var body := s[minuses..];
      if body[0] == '-' || body[0] == '=' {
        err := Some(BadSyntax(s));
        return;
      }
      args := args[1..];
      var (name, value) := Cut(body);
      if name !in decls.flags {
        err := Some(if name == "help" || name == "h" then ErrHelp else NotDefined(name));
        return;
      }
      var flag := decls.flags[name];
      if flag.kind.BoolFlag? {
        if value.None? {
          value := Some("true");
        }
      } else {
        if value.None? && args != [] {
          value, args := Some(args[0]), args[1..];
        }
        if value.None? {
          err := Some(NeedsArgument(name));
          return;
        }
      }
      var read := ReadValue(decls, flag.kind, value.value);
      if read.None? {
        err := Some(BadValue(name));
        return;
      }
      cells, actual := cells[flag.cell := read.value], actual + {name};
      seen := true;
    }

    method ParseArgs(arguments: seq<string>) returns (err: Option<Error>)
      modifies this
      ensures match Parse(decls, old(Current()), arguments)
              case Done(st, rest) => err == None && Current() == st && args == rest
              case Failed(e) => err == Some(e)
    {
      args := arguments;
      var seen := true;
      err := None;
      while seen
        invariant !seen ==> match Parse(decls, old(Current()), arguments)
                            case Done(st, rest) => err == None && Current() == st && args == rest
                            case Failed(e) => err == Some(e)
        invariant seen ==> err == None && Parse(decls, Current(), args) == Parse(decls, old(Current()), arguments)
        decreases seen, |args|
      {
        seen, err := TakeFlag();
      }
    }
  }

  /** A flag that was seen assigned a value of its own kind to one variable. */
  lemma SeenAssigns(d: Decls, st: State, args: seq<string>) returns (name: string, v: Value)
    requires WellFormed(d) && ParseOne(d, st, args).Seen?
    ensures name in d.flags && HasKind(v, d.flags[name].kind) && ReadsBack(d, v)
    ensures ParseOne(d, st, args).st == Assign(d, st, name, v)
  {
    var s := args[0];
    var (key, value) := Cut(if s[1] == '-' then s[2..] else s[1..]);
    name := key;
    v := ParseOne(d, st, args).st.cells[d.flags[name].cell];
  }

  lemma {:induction false} ParseKeepsConsistent(d: Decls, st: State, args: seq<string>)
    requires WellFormed(d) && Consistent(d, st)
    ensures var r := Parse(d, st, args); r.Done? ==> Consistent(d, r.st)
    decreases |args|
  {
    var one := ParseOne(d, st, args);
    if one.Seen? {
      var name, v := SeenAssigns(d, st, args);
      AssignKeepsConsistent(d, st, name, v);
      ParseKeepsConsistent(d, one.st, one.rest);
    }
  }

  lemma AssignKeepsConsistent(d: Decls, st: State, name: string, v: Value)
    requires WellFormed(d) && Consistent(d, st) && name in d.flags
    requires HasKind(v, d.flags[name].kind) && ReadsBack(d, v)
    ensures Consistent(d, Assign(d, st, name, v))
  {
    var n := Assign(d, st, name, v);
    var cell := d.flags[name].cell;
    forall c | c in n.cells && n.cells[c] != d.defaults[c]
      ensures Bound(d, n.actual, c)
    {
      if c == cell {
        assert name in n.actual;
      } else {
        assert Bound(d, st.actual, c);
      }
    }
  }

}
