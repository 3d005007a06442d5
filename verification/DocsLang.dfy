/** docsLang: `coddy docs` takes --lang out of its arguments wherever it stands. */
module DocsLang {
  import opened Options

  const FLAG := "--lang"
  const FLAG_EQ := "--lang="

  datatype Taken = Taken(lang: string, rest: seq<string>) | Refused

  /** docs.KnownLang is the parameter known; a value that looks like a flag is no language. */
  predicate IsLanguage(known: string -> Option<string>, value: string) {
    known(value).Some? && !("-" <= value)
  }

  /** The loop, from any point of it. */
  function Take(known: string -> Option<string>, args: seq<string>, lang: string, rest: seq<string>): Taken
    decreases |args|
  {
    if args == [] then Taken(lang, rest)
    else if args[0] == FLAG then
      if |args| < 2 || !IsLanguage(known, args[1]) then Refused
      else Take(known, args[2..], known(args[1]).value, rest)
    else if FLAG_EQ <= args[0] then
      var value := args[0][|FLAG_EQ|..];
      if !IsLanguage(known, value) then Refused else Take(known, args[1..], known(value).value, rest)
    else Take(known, args[1..], lang, rest + [args[0]])
  }

  method TakeLang(known: string -> Option<string>, args: seq<string>)
    returns (lang: string, rest: seq<string>, ok: bool)
    ensures Take(known, args, "", []) == if ok then Taken(lang, rest) else Refused
    ensures !ok ==> lang == "" && rest == []
  {
    lang, rest, ok := "", [], true;
    var i := 0;
    while i < |args|
      invariant 0 <= i <= |args|
      invariant Take(known, args[i..], lang, rest) == Take(known, args, "", [])
    {
      var a := args[i];
      var value, isLang := "", false;
      assert args[i..][1..] == args[i + 1..];
      if a == FLAG {
        if i + 1 >= |args| {
          return "", [], false;
        }
        assert args[i..][2..] == args[i + 2..];
        value, isLang := args[i + 1], true;
        i := i + 1;
      } else if FLAG_EQ <= a {
        value, isLang := a[|FLAG_EQ|..], true;
      } else {
        rest := rest + [a];
      }
      if isLang {
        var found := known(value);
        if found == None || "-" <= value {
          return "", [], false;
        }
        lang := found.value;
      }
      i := i + 1;
    }
  }

  // ----- the arguments as they are meant -----

  datatype Arg = Plain(a: string) | Next(value: string) | Joined(value: string)

  function Tokens(arg: Arg): seq<string> {
    match arg
    case Plain(a) => [a]
    case Next(v) => [FLAG, v]
    case Joined(v) => [FLAG_EQ + v]
  }

  function Flatten(args: seq<Arg>): seq<string> {
    if args == [] then [] else Tokens(args[0]) + Flatten(args[1..])
  }

  predicate PlainOk(arg: Arg) {
    arg.Plain? ==> arg.a != FLAG && !(FLAG_EQ <= arg.a)
  }

  /** Every --lang has a language. */
  predicate AllLanguages(known: string -> Option<string>, args: seq<Arg>) {
    args == [] || ((args[0].Plain? || IsLanguage(known, args[0].value)) && AllLanguages(known, args[1..]))
  }

  predicate NamesALanguage(args: seq<Arg>) {
    args != [] && (!args[0].Plain? || NamesALanguage(args[1..]))
  }

  function Plains(args: seq<Arg>): seq<string> {
    if args == [] then [] else (if args[0].Plain? then [args[0].a] else []) + Plains(args[1..])
  }

  /** The language of the last --lang, or lang if there is none. */
  function LastLang(known: string -> Option<string>, args: seq<Arg>, lang: string): string {
    if args == [] then lang
    else
      LastLang(known, args[1..],
        if !args[0].Plain? && known(args[0].value).Some? then known(args[0].value).value else lang)
  }

  /** Wherever the flags stand and in either spelling: every other argument comes back once and in
      order, with the last language - if every value is a language - and nothing comes back
      otherwise. */
  lemma {:induction false} TakesExactlyTheLanguages(
    known: string -> Option<string>, args: seq<Arg>, lang: string, rest: seq<string>)
    requires forall a :: a in args ==> PlainOk(a)
    ensures Take(known, Flatten(args), lang, rest)
         == if AllLanguages(known, args)
            then Taken(LastLang(known, args, lang), rest + Plains(args)) else Refused
    decreases |args|
  {
    if args == [] {
      assert rest + [] == rest;
    } else {
      var tail := Flatten(args[1..]);
      TakeOne(known, args[0], tail, lang, rest);
      match args[0]
      case Plain(a) =>
        TakesExactlyTheLanguages(known, args[1..], lang, rest + [a]);
        assert rest + [a] + Plains(args[1..]) == rest + Plains(args);
      case _ =>
        var v := args[0].value;
        assert [] + Plains(args[1..]) == Plains(args[1..]);
        if IsLanguage(known, v) {
          TakesExactlyTheLanguages(known, args[1..], known(v).value, rest);
        }
    }
  }

  lemma TakeOne(known: string -> Option<string>, arg: Arg, tail: seq<string>, lang: string, rest: seq<string>)
    requires PlainOk(arg)
    ensures Take(known, Tokens(arg) + tail, lang, rest)
         == if arg.Plain? then Take(known, tail, lang, rest + [arg.a])
            else if IsLanguage(known, arg.value) then Take(known, tail, known(arg.value).value, rest)
            else Refused
  {
    var all := Tokens(arg) + tail;
    match arg
    case Plain(a) =>
      assert all[0] == a && all[1..] == tail;
    case Next(v) =>
      assert all[1] == v && all[2..] == tail;
    case Joined(v) =>
      assert all[0] == FLAG_EQ + v && all[0][|FLAG_EQ|..] == v && all[1..] == tail;
      assert all[0] != FLAG;
  }

  /** Reading a list of arguments as it is meant; dangling if it ends in a --lang without a value. */
  function Read(args: seq<string>): (seq<Arg>, bool)
    decreases |args|
  {
    if args == [] then ([], false)
    else if args[0] == FLAG then
      if |args| < 2 then ([], true)
      else var (more, dangling) := Read(args[2..]); ([Next(args[1])] + more, dangling)
    else
      var (more, dangling) := Read(args[1..]);
      ([if FLAG_EQ <= args[0] then Joined(args[0][|FLAG_EQ|..]) else Plain(args[0])] + more, dangling)
  }

  /** Every list of arguments has such a reading. */
  lemma {:induction false} EveryListReads(args: seq<string>)
    ensures forall a :: a in Read(args).0 ==> PlainOk(a)
    ensures args == Flatten(Read(args).0) + if Read(args).1 then [FLAG] else []
    decreases |args|
  {
    if args != [] {
      if args[0] != FLAG {
        EveryListReads(args[1..]);
        OneRead(args);
      } else if |args| >= 2 {
        EveryListReads(args[2..]);
        TwoRead(args);
      }
    }
  }

  /** The reading of args stands for args. */
  predicate Reads(args: seq<string>) {
    && (forall a :: a in Read(args).0 ==> PlainOk(a))
    && args == Flatten(Read(args).0) + if Read(args).1 then [FLAG] else []
  }

  lemma TwoRead(args: seq<string>)
    requires |args| >= 2 && args[0] == FLAG && Reads(args[2..])
    ensures Reads(args)
  {
    var a := Next(args[1]);
    assert args == Tokens(a) + args[2..];
    assert ([a] + Read(args[2..]).0)[1..] == Read(args[2..]).0;
  }

  lemma OneRead(args: seq<string>)
    requires args != [] && args[0] != FLAG && Reads(args[1..])
    ensures Reads(args)
  {
    var a := Read(args).0[0];
    assert FLAG_EQ <= args[0] ==> args[0] == FLAG_EQ + args[0][|FLAG_EQ|..];
    assert Tokens(a) == [args[0]];
    assert args == Tokens(a) + args[1..];
    assert ([a] + Read(args[1..]).0)[1..] == Read(args[1..]).0;
  }

  lemma {:induction false} TakeConcat(
    known: string -> Option<string>, a: seq<string>, b: seq<string>, lang: string, rest: seq<string>)
    requires !Read(a).1
    ensures Take(known, a + b, lang, rest)
         == match Take(known, a, lang, rest)
            case Refused => Refused
            case Taken(l, r) => Take(known, b, l, r)
    decreases |a|
  {
    if a == [] {
      assert a + b == b;
    } else {
      assert (a + b)[1..] == a[1..] + b;
      if a[0] == FLAG {
        assert (a + b)[2..] == a[2..] + b;
        if IsLanguage(known, a[1]) {
          TakeConcat(known, a[2..], b, known(a[1]).value, rest);
        }
      } else if FLAG_EQ <= a[0] {
        var value := a[0][|FLAG_EQ|..];
        if IsLanguage(known, value) {
          TakeConcat(known, a[1..], b, known(value).value, rest);
        }
      } else {
        TakeConcat(known, a[1..], b, lang, rest + [a[0]]);
      }
    }
  }

  lemma {:induction false} TakeFrom(known: string -> Option<string>, args: seq<string>, lang: string, rest: seq<string>)
    ensures Take(known, args, lang, rest)
         == match Take(known, args, "", [])
            case Refused => Refused
            case Taken(l, r) => Taken(if NamesALanguage(Read(args).0) then l else lang, rest + r)
  {
    EveryListReads(args);
    var items := Read(args).0;
    if Read(args).1 {
      TakeDangling(known, items, lang, rest);
      TakeDangling(known, items, "", []);
    } else {
      assert Flatten(items) + [] == Flatten(items);
      TakesExactlyTheLanguages(known, items, lang, rest);
      TakesExactlyTheLanguages(known, items, "", []);
      assert [] + Plains(items) == Plains(items);
      if AllLanguages(known, items) {
        LastLangFrom(known, items, lang);
      }
    }
  }

  lemma {:induction false} LastLangFrom(known: string -> Option<string>, args: seq<Arg>, lang: string)
    requires AllLanguages(known, args)
    ensures LastLang(known, args, lang) == if NamesALanguage(args) then LastLang(known, args, "") else lang
    decreases |args|
  {
    if args != [] && args[0].Plain? {
      LastLangFrom(known, args[1..], lang);
    }
  }

  /** A --lang without a value refuses the whole line, whatever stands before it. */
  lemma {:induction false} TakeDangling(
    known: string -> Option<string>, args: seq<Arg>, lang: string, rest: seq<string>)
    requires forall a :: a in args ==> PlainOk(a)
    ensures Take(known, Flatten(args) + [FLAG], lang, rest) == Refused
    decreases |args|
  {
    if args == [] {
      assert [] + [FLAG] == [FLAG];
    } else {
      var tail := Flatten(args[1..]) + [FLAG];
      assert Flatten(args) + [FLAG] == Tokens(args[0]) + tail;
      TakeOne(known, args[0], tail, lang, rest);
      match args[0]
      case Plain(a) => TakeDangling(known, args[1..], lang, rest + [a]);
      case _ =>
        if IsLanguage(known, args[0].value) {
          TakeDangling(known, args[1..], known(args[0].value).value, rest);
        }
    }
  }

  /** On a line whose left part does not end in a dangling --lang the result is that of the parts
      put together: the arguments left, then right, and the right part's language if it has one. */
  lemma PartsCompose(known: string -> Option<string>, a: seq<string>, b: seq<string>)
    requires !Read(a).1
    ensures Take(known, a + b, "", [])
         == match Take(known, a, "", [])
            case Refused => Refused
            case Taken(l, r) =>
              (match Take(known, b, "", [])
               case Refused => Refused
               case Taken(l', r') => Taken(if NamesALanguage(Read(b).0) then l' else l, r + r'))
  {
    TakeConcat(known, a, b, "", []);
    match Take(known, a, "", [])
    case Refused =>
    case Taken(l, r) => TakeFrom(known, b, l, r);
  }

  /** A value that looks like a flag is no language, even if the documentation knew it. */
  lemma FlagIsNoLanguage(known: string -> Option<string>, value: string)
    ensures Take(known, [FLAG, value], "", [])
         == if known(value).Some? && (value == "" || value[0] != '-') then Taken(known(value).value, []) else Refused
    ensures Take(known, [FLAG_EQ + value], "", []) == Take(known, [FLAG, value], "", [])
  {
    assert [FLAG, value][2..] == [] && [FLAG_EQ + value][1..] == [];
    assert (FLAG_EQ + value)[|FLAG_EQ|..] == value && FLAG_EQ + value != FLAG;
    assert value != "" ==> ("-" <= value <==> value[0] == '-');
  }
}
