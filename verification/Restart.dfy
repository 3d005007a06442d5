/** How `coddy serve` hands its command line to the processes it starts: typedServeFlags prints
    the parsed flag set, the dispatcher and the workers parse it again, the record keeps it, and
    `coddy serve restart` starts the daemon from it. */
module Restart {
  import opened Options
  import opened Text
  import opened Flags

  // ----- the printer -----

  /** The flag is printed: it was typed and is not one of the skipped names. */
  predicate Kept(st: State, skip: set<string>, name: string) {
    name in st.actual && name !in skip
  }

  function Line(d: Decls, st: State, name: string): string
    requires name in d.flags && d.flags[name].cell in st.cells
  {
    "-" + name + "=" + ValueText(st.cells[d.flags[name].cell])
  }

  /** The line of one flag, if it is printed. */
  function FlagLine(d: Decls, st: State, name: string, skip: set<string>): seq<string>
    requires name in d.flags && d.flags[name].cell in st.cells
  {
    if Kept(st, skip, name) then [Line(d, st, name)] else []
  }

  function PrintFlags(d: Decls, st: State, names: seq<string>, skip: set<string>): seq<string>
    requires forall n :: n in names ==> n in d.flags && d.flags[n].cell in st.cells
  {
    if names == [] then [] else FlagLine(d, st, names[0], skip) + PrintFlags(d, st, names[1..], skip)
  }

  /** One -name=value for every typed flag but the skipped ones, in the order of Visit. */
  function PrintTyped(d: Decls, st: State, skip: set<string>): seq<string>
    requires forall n :: n in st.actual ==> n in d.flags && d.flags[n].cell in st.cells
  {
    PrintFlags(d, st, Sorted(st.actual), skip)
  }

  const DAEMON_NAMES: set<string> := {"d", "daemon"}

  lemma {:induction false} PrintFlagsAppend(d: Decls, st: State, names: seq<string>, name: string, skip: set<string>)
    requires forall n :: n in names + [name] ==> n in d.flags && d.flags[n].cell in st.cells
    requires forall n :: n in names ==> n in d.flags && d.flags[n].cell in st.cells
    requires name in d.flags && d.flags[name].cell in st.cells
    ensures PrintFlags(d, st, names + [name], skip) == PrintFlags(d, st, names, skip) + FlagLine(d, st, name, skip)
  {
    if names == [] {
      assert [name][1..] == [] && names + [name] == [name];
      assert FlagLine(d, st, name, skip) + [] == FlagLine(d, st, name, skip);
    } else {
      var first, rest := FlagLine(d, st, names[0], skip), names[1..];
      assert (names + [name])[1..] == rest + [name];
      assert forall n :: n in rest + [name] ==> n in names + [name];
      PrintFlagsAppend(d, st, rest, name, skip);
      var more, last := PrintFlags(d, st, rest, skip), FlagLine(d, st, name, skip);
      assert first + (more + last) == first + more + last;
    }
  }

  /** typedServeFlags: appends while visiting. */
  method TypedServeFlags(fs: FlagSet) returns (out: seq<string>)
    requires WellFormed(fs.decls) && Consistent(fs.decls, fs.Current())
    ensures out == PrintTyped(fs.decls, fs.Current(), DAEMON_NAMES)
  {
    var d := fs.decls;
    var visited := Sorted(fs.actual);
    out := [];
    for i := 0 to |visited|
      invariant out == PrintFlags(d, fs.Current(), visited[..i], DAEMON_NAMES)
    {
      assert visited[..i + 1] == visited[..i] + [visited[i]];
      PrintFlagsAppend(d, fs.Current(), visited[..i], visited[i], DAEMON_NAMES);
      var line := VisitFlag(fs, visited[i]);
      out := out + line;
    }
    assert visited[..|visited|] == visited;
  }

  /** The visitor: the line of one flag, if it is to be handed on. */
  method VisitFlag(fs: FlagSet, name: string) returns (line: seq<string>)
    requires name in fs.actual && name in fs.decls.flags && fs.decls.flags[name].cell in fs.cells
    ensures line == FlagLine(fs.decls, fs.Current(), name, DAEMON_NAMES)
  {
    if name == "d" || name == "daemon" {
      return [];
    }
    line := ["-" + name + "=" + ValueText(fs.cells[fs.decls.flags[name].cell])];
  }

  // ----- the parser undoes the printer -----

  lemma PrintedLine(d: Decls, st: State, name: string)
    requires WellFormed(d) && Consistent(d, st) && name in d.flags
    ensures var s, text := Line(d, st, name), ValueText(st.cells[d.flags[name].cell]);
            && |s| >= 2 && s[0] == '-' && s[1] == name[0] && s[1] != '-' && s[1] != '='
            && s[1..] == name + "=" + text && Cut(s[1..]) == (name, Some(text))
  {
    var body := name + "=" + ValueText(st.cells[d.flags[name].cell]);
    assert Line(d, st, name) == "-" + body && Line(d, st, name)[1..] == body;
    assert name[0] in name;
    CutJoined(name, ValueText(st.cells[d.flags[name].cell]));
  }

  lemma ParsePrintedLine(d: Decls, st: State, now: State, name: string, rest: seq<string>)
    requires WellFormed(d) && Consistent(d, st) && name in d.flags
    ensures ParseOne(d, now, [Line(d, st, name)] + rest)
         == Seen(Assign(d, now, name, st.cells[d.flags[name].cell]), rest)
  {
    PrintedLine(d, st, name);
    ReadPrinted(d, d.flags[name].kind, st.cells[d.flags[name].cell]);
    assert ([Line(d, st, name)] + rest)[1..] == rest;
  }

  /** What assigning the printed flags one after another leaves. */
  function Copied(d: Decls, st: State, now: State, names: seq<string>, skip: set<string>): State
    requires forall n :: n in names ==> n in d.flags && d.flags[n].cell in st.cells
    decreases |names|
  {
    if names == [] then now
    else
      var name := names[0];
      Copied(d, st, if Kept(st, skip, name) then Assign(d, now, name, st.cells[d.flags[name].cell]) else now,
             names[1..], skip)
  }

  lemma {:induction false} ParsePrintedFlags(d: Decls, st: State, now: State, names: seq<string>, skip: set<string>)
    requires WellFormed(d) && Consistent(d, st)
    requires forall n :: n in names ==> n in d.flags
    ensures Parse(d, now, PrintFlags(d, st, names, skip)) == Done(Copied(d, st, now, names, skip), [])
    decreases |names|
  {
    if names != [] {
      var name := names[0];
      var rest := PrintFlags(d, st, names[1..], skip);
      if Kept(st, skip, name) {
        ParsePrintedLine(d, st, now, name, rest);
        ParsePrintedFlags(d, st, Assign(d, now, name, st.cells[d.flags[name].cell]), names[1..], skip);
      } else {
        assert PrintFlags(d, st, names, skip) == rest;
        ParsePrintedFlags(d, st, now, names[1..], skip);
      }
    }
  }

  ghost predicate KeptCell(d: Decls, st: State, names: seq<string>, skip: set<string>, c: string) {
    exists n :: n in names && n in d.flags && Kept(st, skip, n) && d.flags[n].cell == c
  }

  lemma {:induction false} CopiedCell(d: Decls, st: State, now: State, names: seq<string>, skip: set<string>, c: string)
    requires forall n :: n in names ==> n in d.flags && d.flags[n].cell in st.cells && d.flags[n].cell in now.cells
    ensures Copied(d, st, now, names, skip).cells.Keys == now.cells.Keys
    ensures c in now.cells ==>
              Copied(d, st, now, names, skip).cells[c]
              == if KeptCell(d, st, names, skip, c) then st.cells[c] else now.cells[c]
    decreases |names|
  {
    if names != [] {
      var name := names[0];
      var next := if Kept(st, skip, name) then Assign(d, now, name, st.cells[d.flags[name].cell]) else now;
      CopiedCell(d, st, next, names[1..], skip, c);
      assert KeptCell(d, st, names, skip, c)
        <==> (Kept(st, skip, name) && d.flags[name].cell == c) || KeptCell(d, st, names[1..], skip, c);
    }
  }

  lemma {:induction false} CopiedNames(
    d: Decls, st: State, now: State, names: seq<string>, skip: set<string>, n: string)
    requires forall n :: n in names ==> n in d.flags && d.flags[n].cell in st.cells
    ensures n in Copied(d, st, now, names, skip).actual <==> n in now.actual || (n in names && Kept(st, skip, n))
    decreases |names|
  {
    if names != [] {
      var name := names[0];
      var next := if Kept(st, skip, name) then Assign(d, now, name, st.cells[d.flags[name].cell]) else now;
      CopiedNames(d, st, next, names[1..], skip, n);
    }
  }

  /** No flag outside skip shares a variable with one in it. */
  ghost predicate Isolated(d: Decls, skip: set<string>) {
    forall m, n :: m in skip && m in d.flags && n in d.flags && d.flags[n].cell == d.flags[m].cell ==> n in skip
  }

  /** The same options with the skipped flags as if they had never been typed. */
  ghost predicate SameBut(d: Decls, skip: set<string>, before: State, after: State) {
    && after.actual == before.actual - skip
    && after.cells.Keys == before.cells.Keys
    && (forall c :: c in before.cells && !Bound(d, skip, c) ==> after.cells[c] == before.cells[c])
    && (forall c :: c in before.cells && c in d.defaults && Bound(d, skip, c) ==> after.cells[c] == d.defaults[c])
  }

  /** The round trip: for every accepted command line, parsing what the printer prints gives the
      same value in every variable and the same typed names, but for the skipped flags, which
      are gone. */
  lemma ParseUndoesPrint(d: Decls, st: State, skip: set<string>)
    requires WellFormed(d) && Isolated(d, skip) && Consistent(d, st)
    ensures var r := Parse(d, Fresh(d), PrintTyped(d, st, skip));
            r.Done? && r.rest == [] && SameBut(d, skip, st, r.st)
  {
    var names := Sorted(st.actual);
    ParsePrintedFlags(d, st, Fresh(d), names, skip);
    var after := Copied(d, st, Fresh(d), names, skip);
    forall n
      ensures n in after.actual <==> n in st.actual - skip
    {
      CopiedNames(d, st, Fresh(d), names, skip, n);
    }
    CopiedCell(d, st, Fresh(d), names, skip, "");
    forall c | c in st.cells
      ensures !Bound(d, skip, c) ==> after.cells[c] == st.cells[c]
      ensures Bound(d, skip, c) ==> after.cells[c] == d.defaults[c]
    {
      CopiedCell(d, st, Fresh(d), names, skip, c);
      if !Bound(d, skip, c) && st.cells[c] != d.defaults[c] {
        assert Bound(d, st.actual, c);
        var n :| n in st.actual && n in d.flags && d.flags[n].cell == c;
        assert Kept(st, skip, n) && n in names;
        assert KeptCell(d, st, names, skip, c);
      }
    }
  }

  lemma {:induction false} SkippedPrintNothing(d: Decls, st: State, names: set<string>, skip: set<string>)
    requires forall n :: n in names ==> n in d.flags && d.flags[n].cell in st.cells
    ensures PrintFlags(d, st, Sorted(names), skip) == PrintFlags(d, st, Sorted(names - skip), skip)
    decreases |names|
  {
    if names == {} {
      assert names - skip == {};
    } else {
      var m := Sorted(names)[0];
      assert Sorted(names)[1..] == Sorted(names - {m});
      SkippedPrintNothing(d, st, names - {m}, skip);
      if m in skip {
        assert names - skip == names - {m} - skip;
      } else {
        var rest := names - skip;
        assert IsLeast(m, rest);
        LeastIsUnique(rest, m, Sorted(rest)[0]);
        assert Sorted(rest)[1..] == Sorted(rest - {m});
        assert rest - {m} == names - {m} - skip;
      }
    }
  }

  lemma {:induction false} SamePrint(d: Decls, skip: set<string>, a: State, b: State, names: seq<string>)
    requires Isolated(d, skip) && SameBut(d, skip, a, b)
    requires forall n :: n in names ==> n in a.actual && n !in skip && n in d.flags && d.flags[n].cell in a.cells
    ensures PrintFlags(d, a, names, skip) == PrintFlags(d, b, names, skip)
  {
    if names != [] {
      assert names[0] in names && !Bound(d, skip, d.flags[names[0]].cell);
      SamePrint(d, skip, a, b, names[1..]);
    }
  }

  /** Walking the typed names and skipping some prints what walking the others prints. */
  lemma PrintsAlike(d: Decls, skip: set<string>, a: State, b: State)
    requires Isolated(d, skip) && SameBut(d, skip, a, b)
    requires forall n :: n in a.actual ==> n in d.flags && d.flags[n].cell in a.cells
    ensures PrintTyped(d, a, skip) == PrintTyped(d, b, skip)
  {
    SkippedPrintNothing(d, a, a.actual, skip);
    SamePrint(d, skip, a, b, Sorted(a.actual - skip));
    assert b.actual == a.actual - skip;
  }

  lemma {:induction false} KeptLines(d: Decls, st: State, names: seq<string>, skip: set<string>)
    requires forall n :: n in names ==> n in d.flags && d.flags[n].cell in st.cells && Kept(st, skip, n)
    ensures |PrintFlags(d, st, names, skip)| == |names|
    ensures forall i :: 0 <= i < |names| ==>
              PrintFlags(d, st, names, skip)[i]
              == AsArgument(false, names[i], Some(ValueText(st.cells[d.flags[names[i]].cell])))
  {
    if names != [] {
      KeptLines(d, st, names[1..], skip);
      var line := Line(d, st, names[0]);
      assert line == AsArgument(false, names[0], Some(ValueText(st.cells[d.flags[names[0]].cell])));
      assert FlagLine(d, st, names[0], skip) == [line];
    }
  }

  /** There is one line to each typed name that is not skipped, in ascending order of the names: the
      name behind one dash, and its variable's value behind "=". */
  lemma PrintsOneLinePerName(d: Decls, st: State, skip: set<string>)
    requires forall n :: n in st.actual ==> n in d.flags && d.flags[n].cell in st.cells
    ensures var lines, names := PrintTyped(d, st, skip), Sorted(st.actual - skip);
            && |lines| == |st.actual - skip| == |names|
            && (forall i, j :: 0 <= i < j < |names| ==> Less(names[i], names[j]))
            && (forall i :: 0 <= i < |names| ==>
                  && names[i] in st.actual - skip
                  && lines[i] == AsArgument(false, names[i], Some(ValueText(st.cells[d.flags[names[i]].cell]))))
  {
    SkippedPrintNothing(d, st, st.actual, skip);
    SortedAscends(st.actual - skip);
    KeptLines(d, st, Sorted(st.actual - skip), skip);
  }

  /** The command line of the next process: what this one prints of the one it was given. An
      unreadable command line is handed on to nobody. */
  function Respawn(d: Decls, skip: set<string>, args: seq<string>): seq<string>
    requires WellFormed(d)
  {
    FreshIsConsistent(d);
    ParseKeepsConsistent(d, Fresh(d), args);
    match Parse(d, Fresh(d), args)
    case Done(st, _) => PrintTyped(d, st, skip)
    case Failed(_) => []
  }

  function Iterate<T>(f: T -> T, x: T, n: nat): T {
    if n == 0 then x else f(Iterate(f, x, n - 1))
  }

  lemma {:induction false} IterateFixed<T>(f: T -> T, x: T, n: nat)
    requires f(f(x)) == f(x) && n >= 1
    ensures Iterate(f, x, n) == f(x)
  {
    if n == 1 {
      assert Iterate(f, x, 0) == x;
    } else {
      IterateFixed(f, x, n - 1);
    }
  }

  /** The command line of the n-th process down the line. */
  function Generation(d: Decls, skip: set<string>, args: seq<string>, n: nat): seq<string>
    requires WellFormed(d)
  {
    Iterate((a: seq<string>) => Respawn(d, skip, a), args, n)
  }

  lemma FreshIsConsistent(d: Decls)
    requires WellFormed(d)
    ensures Consistent(d, Fresh(d))
  {
  }

  /** Printing what was parsed is a fixed point. */
  lemma RespawnIsFixed(d: Decls, skip: set<string>, args: seq<string>)
    requires WellFormed(d) && Isolated(d, skip) && Parse(d, Fresh(d), args).Done?
    ensures var first := Respawn(d, skip, args);
            var r := Parse(d, Fresh(d), first);
            && r.Done? && r.rest == []
            && SameBut(d, skip, Parse(d, Fresh(d), args).st, r.st)
            && Respawn(d, skip, first) == first
  {
    FreshIsConsistent(d);
    var st := Parse(d, Fresh(d), args).st;
    ParseKeepsConsistent(d, Fresh(d), args);
    var first := PrintTyped(d, st, skip);
    assert Respawn(d, skip, args) == first;
    ParseUndoesPrint(d, st, skip);
    var again := Parse(d, Fresh(d), first).st;
    ParseKeepsConsistent(d, Fresh(d), first);
    PrintsAlike(d, skip, st, again);
  }

  /** After any number of dispatchers, workers and restarts the command line is the one the first
      spawn printed, and its options are those the operator typed. */
  lemma EveryGenerationHasTheSameOptions(d: Decls, skip: set<string>, args: seq<string>, n: nat)
    requires WellFormed(d) && Isolated(d, skip) && Parse(d, Fresh(d), args).Done?
    requires n >= 1
    ensures Generation(d, skip, args, n) == Respawn(d, skip, args)
    ensures var r := Parse(d, Fresh(d), Generation(d, skip, args, n));
            r.Done? && r.rest == [] && SameBut(d, skip, Parse(d, Fresh(d), args).st, r.st)
  {
    RespawnIsFixed(d, skip, args);
    IterateFixed((a: seq<string>) => Respawn(d, skip, a), args, n);
  }

  lemma {:induction false} PrintedLinesAreFlags(d: Decls, st: State, names: seq<string>, skip: set<string>, i: nat)
    requires forall n :: n in names ==> n in d.flags && d.flags[n].cell in st.cells
    requires i < |PrintFlags(d, st, names, skip)|
    ensures var line := PrintFlags(d, st, names, skip)[i]; |line| >= 2 && line[0] == '-'
    decreases |names|
  {
    if names != [] {
      var shift := if Kept(st, skip, names[0]) then 1 else 0;
      if i >= shift {
        PrintedLinesAreFlags(d, st, names[1..], skip, i - shift);
      }
    }
  }

  /** Nothing a process hands on can be taken for a word. */
  lemma RespawnPrintsFlags(d: Decls, skip: set<string>, args: seq<string>, i: nat)
    requires WellFormed(d) && i < |Respawn(d, skip, args)|
    ensures var line := Respawn(d, skip, args)[i]; |line| >= 2 && line[0] == '-'
  {
    FreshIsConsistent(d);
    ParseKeepsConsistent(d, Fresh(d), args);
    var st := Parse(d, Fresh(d), args).st;
    PrintedLinesAreFlags(d, st, Sorted(st.actual), skip, i);
  }
}
