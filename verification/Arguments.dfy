/** Loops over a flag parser: the arguments of `coddy docs search` and of `coddy sessions export`,
    where flags stand before, between or after the words. */
module Arguments {
  import opened Options
  import opened Flags

  // ----- docs search -----

  datatype Searched = Words(words: seq<string>, st: State) | BadUsage(error: Error)

  /** The search loop: parse flags, take one word, and parse again from behind it. */
  function Search(d: Decls, st: State, args: seq<string>, words: seq<string>): Searched
    decreases |args|
  {
    if args == [] then Words(words, st)
    else
      match Parse(d, st, args)
      case Failed(e) => BadUsage(e)
      case Done(st', rest) =>
        if rest == [] then Words(words, st') else Search(d, st', rest[1..], words + [rest[0]])
  }

  method SearchLoop(fs: FlagSet, arguments: seq<string>) returns (words: seq<string>, err: Option<Error>)
    modifies fs
    ensures match Search(fs.decls, old(fs.Current()), arguments, [])
            case Words(w, st) => err == None && words == w && fs.Current() == st
            case BadUsage(e) => err == Some(e)
  {
    words, err := [], None;
    var args := arguments;
    while args != []
      invariant err == None
      invariant Search(fs.decls, fs.Current(), args, words) == Search(fs.decls, old(fs.Current()), arguments, [])
      decreases |args|
    {
      err := fs.ParseArgs(args);
      if err != None {
        return;
      }
      if fs.args == [] {
        return;
      }
      words := words + [fs.args[0]];
      args := fs.args[1..];
    }
  }

  // ----- sessions export -----

  datatype Around = Found(word: string, st: State) | Unexpected(arg: string) | Unparsed(error: Error)

  /** parseAroundPositional. */
  function ParseAround(d: Decls, st: State, args: seq<string>): Around {
    match Parse(d, st, args)
    case Failed(e) => Unparsed(e)
    case Done(st1, rest) =>
      if rest == [] then Found("", st1)
      else if |rest| == 1 then Found(rest[0], st1)
      else
        match Parse(d, st1, rest[1..])
        case Failed(e) => Unparsed(e)
        case Done(st2, more) => if more != [] then Unexpected(more[0]) else Found(rest[0], st2)
  }

  method ParseAroundPositional(fs: FlagSet, args: seq<string>) returns (r: Around)
    modifies fs
    ensures r == ParseAround(fs.decls, old(fs.Current()), args)
    ensures r.Found? ==> fs.Current() == r.st
  {
    var err := fs.ParseArgs(args);
    if err.Some? {
      return Unparsed(err.value);
    }
    var rest := fs.args;
    if rest == [] {
      return Found("", fs.Current());
    }
    if |rest| > 1 {
      err := fs.ParseArgs(rest[1..]);
      if err.Some? {
        return Unparsed(err.value);
      }
      if fs.args != [] {
        return Unexpected(fs.args[0]);
      }
    }
    r := Found(rest[0], fs.Current());
  }

  lemma {:induction false} SearchGrows(d: Decls, st: State, args: seq<string>, words: seq<string>)
    ensures var r := Search(d, st, args, words); r.Words? ==> words <= r.words
    decreases |args|
  {
    if args != [] {
      var r := Parse(d, st, args);
      if r.Done? && r.rest != [] {
        SearchGrows(d, r.st, r.rest[1..], words + [r.rest[0]]);
      }
    }
  }

  /** On every argument list the two agree: parseAroundPositional succeeds exactly where the
      search loop finds at most one word, with that word and the same flags; it fails to parse
      only where the loop does; and the argument it did not expect is the loop's second word. */
  lemma AroundAgreesWithSearch(d: Decls, st: State, args: seq<string>)
    ensures var s := Search(d, st, args, []);
            match ParseAround(d, st, args)
            case Found(word, st') => s.Words? && s.st == st' && |s.words| <= 1
                                     && word == (if s.words == [] then "" else s.words[0])
            case Unparsed(e) => s == BadUsage(e)
            case Unexpected(arg) => s.Words? ==> |s.words| >= 2 && s.words[1] == arg
  {
    var first := Parse(d, st, args);
    if first.Done? && |first.rest| > 1 {
      var w := first.rest[0];
      assert [] + [w] == [w];
      var second := Parse(d, first.st, first.rest[1..]);
      if second.Done? && second.rest != [] {
        SearchGrows(d, second.st, second.rest[1..], [w] + [second.rest[0]]);
      }
    }
  }

  // ----- flags among words -----

  datatype Form = Bare | Joined | Separate

  /** An argument as it is meant: a word, or a flag with its value, behind one dash or two. */
  datatype Item = Word(w: string) | Opt(name: string, text: string, form: Form, twoDashes: bool)

  function Tokens(item: Item): seq<string> {
    match item
    case Word(w) => [w]
    case Opt(name, text, form, twoDashes) =>
      var flag := (if twoDashes then "--" else "-") + name;
      match form
      case Bare => [flag]
      case Joined => [flag + "=" + text]
      case Separate => [flag, text]
  }

  function Flatten(items: seq<Item>): seq<string> {
    if items == [] then [] else Tokens(items[0]) + Flatten(items[1..])
  }

  /** A word is no flag; a flag is declared, has a value of its kind, and only a boolean one goes
      without "=". */
  predicate WellSpelled(d: Decls, item: Item) {
    match item
    case Word(w) => |w| < 2 || w[0] != '-'
    case Opt(name, text, form, _) =>
      && name in d.flags
      && ReadValue(d, d.flags[name].kind, text).Some?
      && (form.Bare? ==> d.flags[name].kind.BoolFlag? && text == "true")
      && (form.Separate? ==> !d.flags[name].kind.BoolFlag?)
  }

  function Apply(d: Decls, st: State, item: Item): State {
    match item
    case Word(_) => st
    case Opt(name, text, _, _) =>
      if name in d.flags && ReadValue(d, d.flags[name].kind, text).Some?
      then Assign(d, st, name, ReadValue(d, d.flags[name].kind, text).value)
      else st
  }

  function ApplyAll(d: Decls, st: State, items: seq<Item>): State
    decreases |items|
  {
    if items == [] then st else ApplyAll(d, Apply(d, st, items[0]), items[1..])
  }

  function WordsOf(items: seq<Item>): seq<string> {
    if items == [] then [] else WordOf(items[0]) + WordsOf(items[1..])
  }

  function WordOf(item: Item): seq<string> {
    if item.Word? then [item.w] else []
  }

  function OptsOf(items: seq<Item>): seq<Item> {
    if items == [] then []
    else (if items[0].Opt? then [items[0]] else []) + OptsOf(items[1..])
  }

  function AsWords(words: seq<string>): seq<Item> {
    if words == [] then [] else [Word(words[0])] + AsWords(words[1..])
  }

  lemma ParseOpt(d: Decls, st: State, item: Item, rest: seq<string>)
    requires WellFormed(d) && item.Opt? && WellSpelled(d, item)
    ensures ParseOne(d, st, Tokens(item) + rest) == Seen(Apply(d, st, item), rest)
  {
    var name := item.name;
    var args := Tokens(item) + rest;
    var body := if item.form.Joined? then name + "=" + item.text else name;
    var dashes := if item.twoDashes then "--" else "-";
    assert args[0] == dashes + body;
    assert args[0][|dashes|..] == body && body[0] == name[0];
    assert args[0][1] == if item.twoDashes then '-' else name[0];
    if item.form.Joined? {
      CutJoined(name, item.text);
      assert args[1..] == rest;
    } else {
      CutPlain(name);
      if item.form.Bare? {
        assert args[1..] == rest;
      } else {
        assert args[1] == item.text && args[2..] == rest;
      }
    }
  }

  lemma SearchItem(d: Decls, st: State, item: Item, rest: seq<string>, words: seq<string>)
    requires WellFormed(d) && WellSpelled(d, item)
    ensures Search(d, st, Tokens(item) + rest, words) == Search(d, Apply(d, st, item), rest, words + WordOf(item))
  {
    var args := Tokens(item) + rest;
    if item.Word? {
      assert args[0] == item.w && args[1..] == rest;
      assert ParseOne(d, st, args) == Stop(args);
    } else {
      ParseOpt(d, st, item, rest);
      assert Parse(d, st, args) == Parse(d, Apply(d, st, item), rest);
      assert words + [] == words;
    }
  }

  /** For any interleaving of well-spelled flags with words, the loop finds the words in their
      order and assigns every flag, in the order of the flags. */
  lemma {:induction false} SearchFindsTheWords(d: Decls, st: State, items: seq<Item>, words: seq<string>)
    requires WellFormed(d) && forall i :: i in items ==> WellSpelled(d, i)
    ensures Search(d, st, Flatten(items), words) == Words(words + WordsOf(items), ApplyAll(d, st, items))
    decreases |items|
  {
    if items == [] {
      assert words + [] == words;
    } else {
      var item, rest := items[0], items[1..];
      assert item in items;
      FindsStep(d, st, item, rest, words, Search(d, Apply(d, st, item), Flatten(rest), words + WordOf(item))) by {
        SearchFindsTheWords(d, Apply(d, st, item), rest, words + WordOf(item));
      }
      assert [item] + rest == items;
    }
  }

  lemma ItemsAhead(d: Decls, st: State, item: Item, rest: seq<Item>)
    ensures Flatten([item] + rest) == Tokens(item) + Flatten(rest)
    ensures WordsOf([item] + rest) == WordOf(item) + WordsOf(rest)
    ensures ApplyAll(d, st, [item] + rest) == ApplyAll(d, Apply(d, st, item), rest)
  {
    assert ([item] + rest)[1..] == rest;
  }

  lemma FindsStep(d: Decls, st: State, item: Item, rest: seq<Item>, words: seq<string>, found: Searched)
    requires WellFormed(d) && WellSpelled(d, item)
    requires found == Search(d, Apply(d, st, item), Flatten(rest), words + WordOf(item))
    requires found == Words(words + WordOf(item) + WordsOf(rest), ApplyAll(d, Apply(d, st, item), rest))
    ensures Search(d, st, Flatten([item] + rest), words)
         == Words(words + WordsOf([item] + rest), ApplyAll(d, st, [item] + rest))
  {
    ItemsAhead(d, st, item, rest);
    SearchItem(d, st, item, Flatten(rest), words);
    Reassociate(words, WordOf(item), WordsOf(rest));
  }

  lemma Reassociate(a: seq<string>, b: seq<string>, c: seq<string>)
    ensures a + b + c == a + (b + c)
  {
  }

  /** And at the first argument behind them that does not parse, it ends with that error. */
  lemma {:induction false} SearchEndsAtAnError(
    d: Decls, st: State, items: seq<Item>, args: seq<string>, words: seq<string>, e: Error)
    requires WellFormed(d) && forall i :: i in items ==> WellSpelled(d, i)
    requires args != [] && ParseOne(d, ApplyAll(d, st, items), args) == Fail(e)
    ensures Search(d, st, Flatten(items) + args, words) == BadUsage(e)
    decreases |items|
  {
    if items == [] {
      assert Flatten(items) + args == args;
    } else {
      var item, rest := items[0], items[1..];
      assert item in items;
      EndsStep(d, st, item, rest, args, words, e) by {
        SearchEndsAtAnError(d, Apply(d, st, item), rest, args, words + WordOf(item), e);
      }
      assert [item] + rest == items;
    }
  }

  lemma EndsStep(
    d: Decls, st: State, item: Item, rest: seq<Item>, args: seq<string>, words: seq<string>, e: Error)
    requires WellFormed(d) && WellSpelled(d, item)
    requires Search(d, Apply(d, st, item), Flatten(rest) + args, words + WordOf(item)) == BadUsage(e)
    ensures Search(d, st, Flatten([item] + rest) + args, words) == BadUsage(e)
  {
    ItemsAhead(d, st, item, rest);
    SearchItem(d, st, item, Flatten(rest) + args, words);
    Reassociate(Tokens(item), Flatten(rest), args);
  }

  lemma {:induction false} OfWords(d: Decls, st: State, words: seq<string>)
    ensures WordsOf(AsWords(words)) == words && ApplyAll(d, st, AsWords(words)) == st
  {
    if words != [] {
      OfWords(d, st, words[1..]);
    }
  }

  lemma {:induction false} OfOpts(d: Decls, st: State, items: seq<Item>)
    ensures WordsOf(OptsOf(items)) == [] && ApplyAll(d, st, OptsOf(items)) == ApplyAll(d, st, items)
    decreases |items|
  {
    if items != [] {
      OfOpts(d, Apply(d, st, items[0]), items[1..]);
      if items[0].Opt? {
        assert OptsOf(items)[1..] == OptsOf(items[1..]);
      } else {
        assert OptsOf(items) == OptsOf(items[1..]);
      }
    }
  }

  lemma {:induction false} WordsOfConcat(a: seq<Item>, b: seq<Item>)
    ensures WordsOf(a + b) == WordsOf(a) + WordsOf(b)
  {
    if a == [] {
      assert a + b == b;
    } else {
      assert (a + b)[1..] == a[1..] + b;
      WordsOfConcat(a[1..], b);
    }
  }

  lemma {:induction false} ApplyAllConcat(d: Decls, st: State, a: seq<Item>, b: seq<Item>)
    ensures ApplyAll(d, st, a + b) == ApplyAll(d, ApplyAll(d, st, a), b)
    decreases |a|
  {
    if a == [] {
      assert a + b == b;
    } else {
      assert (a + b)[1..] == a[1..] + b;
      ApplyAllConcat(d, Apply(d, st, a[0]), a[1..], b);
    }
  }

  lemma {:induction false} OptsAreItems(items: seq<Item>)
    ensures forall i :: i in OptsOf(items) ==> i in items
    ensures forall w :: w in WordsOf(items) ==> Word(w) in items
  {
    if items != [] {
      OptsAreItems(items[1..]);
    }
  }

  lemma {:induction false} WordsAreItems(words: seq<string>)
    ensures forall i :: i in AsWords(words) ==> i.Word? && i.w in words
  {
    if words != [] {
      WordsAreItems(words[1..]);
    }
  }

  /** So it is the same search with all the flags moved in front of the words. */
  lemma FlagsMayStandAnywhere(d: Decls, st: State, items: seq<Item>)
    requires WellFormed(d) && forall i :: i in items ==> WellSpelled(d, i)
    ensures Search(d, st, Flatten(items), [])
         == Search(d, st, Flatten(OptsOf(items) + AsWords(WordsOf(items))), [])
  {
    SearchFindsTheWords(d, st, items, []);
    OptsAreItems(items);
    WordsAreItems(WordsOf(items));
    SearchFindsTheWords(d, st, OptsOf(items) + AsWords(WordsOf(items)), []);
    OfOpts(d, st, items);
    OfWords(d, ApplyAll(d, st, items), WordsOf(items));
    WordsOfConcat(OptsOf(items), AsWords(WordsOf(items)));
    ApplyAllConcat(d, st, OptsOf(items), AsWords(WordsOf(items)));
  }

  /** The value of the last flag bound to a variable, or what the variable held. */
  function LastValue(d: Decls, st: State, items: seq<Item>, cell: string): Value
    requires cell in st.cells
  {
    if items == [] then st.cells[cell]
    else
      var last := items[|items| - 1];
      if last.Opt? && last.name in d.flags && d.flags[last.name].cell == cell
          && ReadValue(d, d.flags[last.name].kind, last.text).Some?
      then ReadValue(d, d.flags[last.name].kind, last.text).value
      else LastValue(d, st, items[..|items| - 1], cell)
  }

  lemma {:induction false} ApplyAllLast(d: Decls, st: State, items: seq<Item>, last: Item)
    ensures ApplyAll(d, st, items + [last]) == Apply(d, ApplyAll(d, st, items), last)
    decreases |items|
  {
    if items == [] {
      assert [last][1..] == [];
    } else {
      assert (items + [last])[1..] == items[1..] + [last];
      ApplyAllLast(d, Apply(d, st, items[0]), items[1..], last);
    }
  }

  /** A flag given more than once counts the last time. */
  lemma {:induction false} LastFlagWins(d: Decls, st: State, items: seq<Item>, cell: string)
    requires cell in st.cells
    ensures cell in ApplyAll(d, st, items).cells
    ensures ApplyAll(d, st, items).cells[cell] == LastValue(d, st, items, cell)
    decreases |items|
  {
    if items != [] {
      var init, last := items[..|items| - 1], items[|items| - 1];
      assert items == init + [last];
      LastFlagWins(d, st, init, cell);
      ApplyAllLast(d, st, init, last);
    }
  }

  /** "--" protects the next argument only: whatever that is, it is a word, and flags are parsed
      again behind it. */
  lemma DashesProtectOneArgument(d: Decls, st: State, arg: string, rest: seq<string>, words: seq<string>)
    ensures Search(d, st, ["--", arg] + rest, words) == Search(d, st, rest, words + [arg])
  {
    var args := ["--", arg] + rest;
    assert args[1..] == [arg] + rest && ([arg] + rest)[1..] == rest;
    assert ParseOne(d, st, args) == Stop([arg] + rest);
  }
}
