/** The name receipts use for a hooks file: hookFileKey, on the paths of a Unix system. */
module HookKey {
  import opened Options
  import opened Text

  predicate IsAbs(path: string) {
    path != "" && path[0] == '/'
  }

  // ----- filepath.Clean -----

  /** One component more, behind those kept so far. */
  function Enter(rooted: bool, kept: seq<string>, c: string): seq<string> {
    if c == "" || c == "." then kept
    else if c != ".." then kept + [c]
    else if kept != [] && kept[|kept| - 1] != ".." then kept[..|kept| - 1]
    else if rooted then kept
    else kept + [".."]
  }

  function EnterAll(rooted: bool, kept: seq<string>, cs: seq<string>): seq<string>
    decreases |cs|
  {
    if cs == [] then kept else EnterAll(rooted, Enter(rooted, kept, cs[0]), cs[1..])
  }

  /** The components of a path that are left when it is cleaned. */
  function Elements(path: string): seq<string> {
    EnterAll(IsAbs(path), [], Split(path, '/'))
  }

  function Clean(path: string): string {
    if IsAbs(path) then "/" + Join(Elements(path), "/") else RelativeText(Elements(path))
  }

  function RelativeText(es: seq<string>): string {
    if es == [] then "." else Join(es, "/")
  }

  // ----- filepath.Rel -----

  function Dots(n: nat): seq<string> {
    if n == 0 then [] else [".."] + Dots(n - 1)
  }

  function RelElements(base: seq<string>, target: seq<string>): seq<string> {
    if base != [] && target != [] && base[0] == target[0] then RelElements(base[1..], target[1..])
    else Dots(|base|) + target
  }

  /** filepath.Rel for an absolute target: an error if the base is relative. */
  function Rel(base: string, target: string): Option<string>
    requires IsAbs(target)
  {
    if !IsAbs(base) then None
    else Some(RelativeText(RelElements(Elements(base), Elements(target))))
  }

  // ----- the key -----

  function HookFileKey(space: char -> bool, cwd: string, argument: string): string {
    var file := Trim(argument, space);
    if IsAbs(file) then
      match Rel(cwd, file)
      case Some(rel) => if !(".." <= rel) then rel else Clean(file)
      case None => Clean(file)
    else Clean(file)
  }

  // ----- cleaned components -----

  predicate Name(c: string) {
    c != "" && c != "." && '/' !in c
  }

  /** What cleaning leaves: names, and ".." only in front of a relative path. */
  predicate Cleaned(rooted: bool, es: seq<string>) {
    && (forall e :: e in es ==> Name(e))
    && (forall i :: 0 <= i < |es| && es[i] == ".." ==> !rooted && AllDots(es, i))
  }

  predicate AllDots(es: seq<string>, n: nat) {
    forall j :: 0 <= j < n && j < |es| ==> es[j] == ".."
  }

  lemma EnterKeepsCleaned(rooted: bool, kept: seq<string>, c: string)
    requires Cleaned(rooted, kept) && '/' !in c
    ensures Cleaned(rooted, Enter(rooted, kept, c))
  {
    var es := Enter(rooted, kept, c);
    forall i | 0 <= i < |es| && es[i] == ".."
      ensures !rooted && AllDots(es, i)
    {
      if i < |kept| {
        assert AllDots(kept, i);
      } else {
        assert kept != [] ==> AllDots(kept, |kept| - 1);
      }
    }
  }

  lemma {:induction false} EnterAllKeepsCleaned(rooted: bool, kept: seq<string>, cs: seq<string>)
    requires Cleaned(rooted, kept) && forall c :: c in cs ==> '/' !in c
    ensures Cleaned(rooted, EnterAll(rooted, kept, cs))
    decreases |cs|
  {
    if cs != [] {
      EnterKeepsCleaned(rooted, kept, cs[0]);
      EnterAllKeepsCleaned(rooted, Enter(rooted, kept, cs[0]), cs[1..]);
    }
  }

  lemma ElementsAreCleaned(path: string)
    ensures Cleaned(IsAbs(path), Elements(path))
  {
    EnterAllKeepsCleaned(IsAbs(path), [], Split(path, '/'));
  }

  lemma {:induction false} EnterAllConcat(rooted: bool, kept: seq<string>, a: seq<string>, b: seq<string>)
    ensures EnterAll(rooted, kept, a + b) == EnterAll(rooted, EnterAll(rooted, kept, a), b)
    decreases |a|
  {
    if a == [] {
      assert a + b == b;
    } else {
      assert (a + b)[0] == a[0] && (a + b)[1..] == a[1..] + b;
      EnterAllConcat(rooted, Enter(rooted, kept, a[0]), a[1..], b);
    }
  }

  /** Cleaned components are kept as they are. */
  lemma {:induction false} EnterCleaned(rooted: bool, kept: seq<string>, es: seq<string>)
    requires Cleaned(rooted, kept + es)
    ensures EnterAll(rooted, kept, es) == kept + es
    decreases |es|
  {
    if es == [] {
      assert kept + es == kept;
    } else {
      var e := es[0];
      assert (kept + es)[|kept|] == e && e in kept + es;
      assert e == ".." && kept != [] ==> (kept + es)[|kept| - 1] == "..";
      assert Enter(rooted, kept, e) == kept + [e];
      assert kept + [e] + es[1..] == kept + es;
      EnterCleaned(rooted, kept + [e], es[1..]);
    }
  }

  lemma SplitFirst(path: string)
    ensures IsAbs(path) ==> Split(path, '/')[0] == ""
  {
  }

  /** Splitting the cleaned path gives its components, behind an empty one if it is absolute. */
  lemma SplitCleaned(rooted: bool, es: seq<string>)
    requires Cleaned(rooted, es) && es != []
    ensures Split(Join(es, "/"), '/') == es
    ensures Split("/" + Join(es, "/"), '/') == [""] + es
    ensures !IsAbs(Join(es, "/"))
  {
    SplitJoin(es, '/');
    assert "/" + Join(es, "/") == "" + "/" + Join(es, "/");
    SplitConcat("", Join(es, "/"), '/');
    assert es[0] in es;
    SplitFirst(Join(es, "/"));
  }

  /** Cleaning a path changes neither its components nor whether it is absolute. */
  lemma CleanKeepsThePath(path: string)
    ensures Elements(Clean(path)) == Elements(path) && IsAbs(Clean(path)) == IsAbs(path)
  {
    var rooted, es := IsAbs(path), Elements(path);
    ElementsAreCleaned(path);
    assert [] + es == es;
    EnterCleaned(rooted, [], es);
    if es == [] {
      SplitPiece(".", "", '/');
      SplitPiece("", "", '/');
      assert "" + "/" + "" == "/" && Split("/", '/') == ["", ""];
      assert ["", ""][1..] == [""] && [""][1..] == [] && ["."][1..] == [];
    } else {
      SplitCleaned(rooted, es);
      assert ([""] + es)[1..] == es;
      assert EnterAll(rooted, [], [""] + es) == EnterAll(rooted, [], es);
    }
  }

  /** Cleaning twice changes nothing more. */
  lemma CleanTwice(path: string)
    ensures Clean(Clean(path)) == Clean(path)
  {
    CleanKeepsThePath(path);
  }

  lemma ElementsBehind(p: string, q: string)
    requires p != ""
    ensures Elements(p + "/" + q) == EnterAll(IsAbs(p), Elements(p), Split(q, '/'))
    ensures IsAbs(p + "/" + q) == IsAbs(p)
  {
    SplitConcat(p, q, '/');
    EnterAllConcat(IsAbs(p), [], Split(p, '/'), Split(q, '/'));
    assert (p + "/" + q)[0] == p[0];
  }

  lemma ElementsBehindOne(p: string, c: string, q: string)
    requires p != "" && '/' !in c
    ensures Elements(p + "/" + c + "/" + q) == EnterAll(IsAbs(p), Enter(IsAbs(p), Elements(p), c), Split(q, '/'))
    ensures IsAbs(p + "/" + c + "/" + q) == IsAbs(p)
  {
    var rest := c + "/" + q;
    assert p + "/" + c + "/" + q == p + "/" + rest;
    ElementsBehind(p, rest);
    SplitPiece(c, q, '/');
    assert ([c] + Split(q, '/'))[1..] == Split(q, '/');
  }

  /** A doubled separator and a single dot lead nowhere. */
  lemma DotsAndDoublesAreNothing(p: string, q: string)
    requires p != ""
    ensures Clean(p + "/" + "" + "/" + q) == Clean(p + "/" + q)
    ensures Clean(p + "/" + "." + "/" + q) == Clean(p + "/" + q)
  {
    ElementsBehind(p, q);
    ElementsBehindOne(p, "", q);
    ElementsBehindOne(p, ".", q);
  }

  /** Two dots take back the name before them. */
  lemma DotDotTakesBackAName(p: string, name: string, q: string)
    requires p != "" && Name(name) && name != ".."
    ensures Clean(p + "/" + name + "/" + ".." + "/" + q) == Clean(p + "/" + q)
  {
    var rest := ".." + "/" + q;
    assert p + "/" + name + "/" + ".." + "/" + q == p + "/" + name + "/" + rest;
    ElementsBehind(p, q);
    ElementsBehindOne(p, name, rest);
    SplitPiece("..", q, '/');
    assert ([".."] + Split(q, '/'))[1..] == Split(q, '/');
    var kept := Elements(p);
    assert Enter(IsAbs(p), kept, name) == kept + [name];
    assert (kept + [name])[..|kept|] == kept;
  }

  /** Above the root there is nothing. */
  lemma DotDotAtTheRoot(q: string)
    ensures Clean("/" + ".." + "/" + q) == Clean("/" + q)
  {
    var rest := ".." + "/" + q;
    BehindTheRoot(q);
    BehindTheRoot(rest);
    assert "/" + ".." + "/" + q == "/" + rest;
    SplitPiece("..", q, '/');
    DotsEnterNothing(Split(q, '/'));
  }

  lemma DotsEnterNothing(cs: seq<string>)
    ensures EnterAll(true, [], [".."] + cs) == EnterAll(true, [], cs)
  {
    assert ([".."] + cs)[1..] == cs;
  }

  lemma BehindTheRoot(q: string)
    ensures IsAbs("/" + q) && Elements("/" + q) == EnterAll(true, [], Split(q, '/'))
  {
    SplitPiece("", q, '/');
    assert "" + "/" + q == "/" + q;
    assert ([""] + Split(q, '/'))[1..] == Split(q, '/');
  }

  /** And a path of names, behind as many ".." as it climbs, is clean as it is. */
  lemma CleanedIsClean(es: seq<string>, rooted: bool)
    requires Cleaned(rooted, es) && es != []
    ensures var path := (if rooted then "/" else "") + Join(es, "/"); Clean(path) == path
  {
    SplitCleaned(rooted, es);
    assert [] + es == es && "" + Join(es, "/") == Join(es, "/");
    assert ([""] + es)[1..] == es;
    EnterCleaned(rooted, [], es);
    if rooted {
      assert EnterAll(true, [], [""] + es) == EnterAll(true, [], es);
    }
  }

  // ----- a path under the workspace -----

  lemma {:induction false} DotsRemain(kept: seq<string>, cs: seq<string>)
    requires ".." in kept && Cleaned(false, kept) && forall c :: c in cs ==> '/' !in c
    ensures ".." in EnterAll(false, kept, cs)
    decreases |cs|
  {
    if cs != [] {
      var kept' := Enter(false, kept, cs[0]);
      EnterKeepsCleaned(false, kept, cs[0]);
      var i :| 0 <= i < |kept| && kept[i] == "..";
      assert kept'[i] == "..";
      DotsRemain(kept', cs[1..]);
    }
  }

  /** Components that never climb above where they start end below any base. */
  lemma {:induction false} Below(base: seq<string>, kept: seq<string>, cs: seq<string>)
    requires Cleaned(false, kept) && Cleaned(true, base) && forall c :: c in cs ==> '/' !in c
    requires ".." !in EnterAll(false, kept, cs)
    ensures EnterAll(true, base + kept, cs) == base + EnterAll(false, kept, cs)
    decreases |cs|
  {
    if cs != [] {
      var c := cs[0];
      var kept' := Enter(false, kept, c);
      EnterKeepsCleaned(false, kept, c);
      if ".." in kept' {
        DotsRemain(kept', cs[1..]);
      }
      assert c == ".." && kept == [] ==> kept' == [".."];
      if c == ".." && kept != [] {
        assert kept[|kept| - 1] == ".." ==> kept' == kept + [".."];
        assert (base + kept)[..|base + kept| - 1] == base + kept[..|kept| - 1];
      }
      assert Enter(true, base + kept, c) == base + kept';
      Below(base, kept', cs[1..]);
    }
  }

  lemma {:induction false} RelBelow(base: seq<string>, es: seq<string>)
    ensures RelElements(base, base + es) == es
  {
    if base == [] {
      assert base + es == es;
    } else {
      assert (base + es)[1..] == base[1..] + es;
      RelBelow(base[1..], es);
    }
  }

  /** A path that does not climb names what lies below the base, one that begins with ".." does not. */
  lemma {:induction false} RelSplits(base: seq<string>, target: seq<string>)
    ensures var es := RelElements(base, target);
            (es != [] && es[0] == "..") || target == base + es
  {
    if base != [] && target != [] && base[0] == target[0] {
      RelSplits(base[1..], target[1..]);
      var es := RelElements(base, target);
      assert base == [base[0]] + base[1..] && target == [target[0]] + target[1..];
      assert target[1..] == base[1..] + es ==> target == base + es;
    } else if base == [] {
      assert base + target == target;
    }
  }

  lemma JoinStarts(es: seq<string>)
    requires es != []
    ensures es[0] <= Join(es, "/")
  {
  }

  lemma ElementsOfJoined(cwd: string, rel: string)
    requires IsAbs(cwd)
    ensures Elements(cwd + "/" + rel) == EnterAll(true, Elements(cwd), Split(rel, '/'))
  {
    SplitConcat(cwd, rel, '/');
    EnterAllConcat(true, [], Split(cwd, '/'), Split(rel, '/'));
  }

  /** The relative form of a file does not begin with "..". */
  predicate Inside(rel: string) {
    !(".." <= Clean(rel))
  }

  lemma InsideIsBelow(cwd: string, rel: string)
    requires IsAbs(cwd) && !IsAbs(rel) && Inside(rel)
    ensures Elements(cwd + "/" + rel) == Elements(cwd) + Elements(rel)
  {
    var es := Elements(rel);
    ElementsAreCleaned(rel);
    ElementsAreCleaned(cwd);
    if ".." in es {
      var i :| 0 <= i < |es| && es[i] == "..";
      assert AllDots(es, i);
      assert es[0] == "..";
      JoinStarts(es);
    }
    Below(Elements(cwd), [], Split(rel, '/'));
    assert Elements(cwd) + [] == Elements(cwd);
    ElementsOfJoined(cwd, rel);
  }

  /** The absolute path a file argument means. */
  function Meant(cwd: string, file: string): string {
    Clean(if IsAbs(file) then file else cwd + "/" + file)
  }

  /** The key by components: the way from the base, unless it begins with "..". */
  function KeyOf(base: seq<string>, target: seq<string>): string {
    var rel := RelativeText(RelElements(base, target));
    if ".." <= rel then "/" + Join(target, "/") else rel
  }

  lemma AbsoluteKey(space: char -> bool, cwd: string, argument: string)
    requires IsAbs(cwd) && IsAbs(Trim(argument, space))
    ensures HookFileKey(space, cwd, argument) == KeyOf(Elements(cwd), Elements(Trim(argument, space)))
  {
  }

  lemma NoKeyClimbs(base: seq<string>, target: seq<string>)
    ensures !(".." <= KeyOf(base, target))
  {
    var key := "/" + Join(target, "/");
    assert key[0] == '/';
  }

  lemma MeantElements(cwd: string, file: string)
    requires IsAbs(cwd) && (IsAbs(file) || Inside(file))
    ensures IsAbs(Meant(cwd, file)) && Cleaned(true, Elements(Meant(cwd, file)))
    ensures Elements(Meant(cwd, file)) == if IsAbs(file) then Elements(file) else Elements(cwd) + Elements(file)
  {
    CleanKeepsThePath(if IsAbs(file) then file else cwd + "/" + file);
    ElementsAreCleaned(Meant(cwd, file));
    if !IsAbs(file) {
      InsideIsBelow(cwd, file);
    }
  }

  lemma KeyOfMeant(space: char -> bool, cwd: string, argument: string)
    requires IsAbs(cwd) && (IsAbs(Trim(argument, space)) || Inside(Trim(argument, space)))
    ensures HookFileKey(space, cwd, argument) == KeyOf(Elements(cwd), Elements(Meant(cwd, Trim(argument, space))))
  {
    var file := Trim(argument, space);
    MeantElements(cwd, file);
    if !IsAbs(file) {
      RelBelow(Elements(cwd), Elements(file));
    }
  }

  lemma BelowIsCleaned(base: seq<string>, es: seq<string>)
    requires Cleaned(true, base + es)
    ensures Cleaned(false, es)
  {
    forall i | 0 <= i < |es|
      ensures Name(es[i]) && es[i] != ".."
    {
      assert (base + es)[|base| + i] == es[i] && es[i] in base + es;
    }
  }

  lemma RelativeTextSplits(es: seq<string>)
    requires Cleaned(false, es)
    ensures Split(RelativeText(es), '/') == if es == [] then ["."] else es
    ensures !IsAbs(RelativeText(es))
  {
    if es == [] {
      SplitPiece(".", "", '/');
    } else {
      SplitCleaned(false, es);
    }
  }

  lemma RelativeTextTells(a: seq<string>, b: seq<string>)
    requires Cleaned(false, a) && Cleaned(false, b) && RelativeText(a) == RelativeText(b)
    ensures a == b
  {
    RelativeTextSplits(a);
    RelativeTextSplits(b);
    assert a != [] ==> a[0] in a;
    assert b != [] ==> b[0] in b;
  }

  lemma AbsoluteTextTells(a: seq<string>, b: seq<string>)
    requires Cleaned(true, a) && Cleaned(true, b) && Join(a, "/") == Join(b, "/")
    ensures a == b
  {
    SplitPiece("", "", '/');
    if a != [] {
      SplitCleaned(true, a);
      assert a[0] in a;
    }
    if b != [] {
      SplitCleaned(true, b);
      assert b[0] in b;
    }
  }

  /** A key that is not absolute is the way down from the base. */
  lemma RelativeKey(base: seq<string>, target: seq<string>)
    requires Cleaned(true, target)
    ensures var es, key := RelElements(base, target), KeyOf(base, target);
            if ".." <= RelativeText(es) then key == "/" + Join(target, "/")
            else key == RelativeText(es) && !IsAbs(key) && Cleaned(false, es) && target == base + es
  {
    var es := RelElements(base, target);
    RelSplits(base, target);
    if !(".." <= RelativeText(es)) {
      if es != [] {
        JoinStarts(es);
      }
      BelowIsCleaned(base, es);
      RelativeTextSplits(es);
    }
  }

  lemma KeyOfTells(base: seq<string>, a: seq<string>, b: seq<string>)
    requires Cleaned(true, a) && Cleaned(true, b) && KeyOf(base, a) == KeyOf(base, b)
    ensures a == b
  {
    RelativeKey(base, a);
    RelativeKey(base, b);
    var key := KeyOf(base, a);
    if IsAbs(key) {
      assert key[1..] == Join(a, "/") == Join(b, "/");
      AbsoluteTextTells(a, b);
    } else {
      RelativeTextTells(RelElements(base, a), RelElements(base, b));
    }
  }

  /** A receipt names one file: two arguments, absolute or with a relative form that does not begin
      with "..", have the same key exactly when they mean the same path. */
  lemma KeysNameFiles(space: char -> bool, cwd: string, a: string, b: string)
    requires IsAbs(cwd)
    requires IsAbs(Trim(a, space)) || Inside(Trim(a, space))
    requires IsAbs(Trim(b, space)) || Inside(Trim(b, space))
    ensures HookFileKey(space, cwd, a) == HookFileKey(space, cwd, b)
       <==> Meant(cwd, Trim(a, space)) == Meant(cwd, Trim(b, space))
  {
    var ma, mb := Meant(cwd, Trim(a, space)), Meant(cwd, Trim(b, space));
    KeyOfMeant(space, cwd, a);
    KeyOfMeant(space, cwd, b);
    MeantElements(cwd, Trim(a, space));
    MeantElements(cwd, Trim(b, space));
    if KeyOf(Elements(cwd), Elements(ma)) == KeyOf(Elements(cwd), Elements(mb)) {
      KeyOfTells(Elements(cwd), Elements(ma), Elements(mb));
      CleanTwice(if IsAbs(Trim(a, space)) then Trim(a, space) else cwd + "/" + Trim(a, space));
      CleanTwice(if IsAbs(Trim(b, space)) then Trim(b, space) else cwd + "/" + Trim(b, space));
    }
  }

  /** A file named relative to the workspace, and the same file by an absolute path, whatever ".",
      ".." and doubled separators either holds, have the same key exactly when the cleaned
      relative form does not begin with "..". */
  lemma BothSpellingsHaveOneKey(space: char -> bool, cwd: string, relative: string, absolute: string)
    requires IsAbs(cwd)
    requires !IsAbs(Trim(relative, space)) && IsAbs(Trim(absolute, space))
    requires Meant(cwd, Trim(relative, space)) == Meant(cwd, Trim(absolute, space))
    ensures HookFileKey(space, cwd, relative) == HookFileKey(space, cwd, absolute) <==> Inside(Trim(relative, space))
  {
    if Inside(Trim(relative, space)) {
      KeysNameFiles(space, cwd, relative, absolute);
    } else {
      AbsoluteKey(space, cwd, absolute);
      NoKeyClimbs(Elements(cwd), Elements(Trim(absolute, space)));
    }
  }

  lemma PathOfOne(name: string)
    requires Name(name) && name != ".."
    ensures !IsAbs(name) ==> Elements(name) == [name]
    ensures Elements("/w/" + name) == ["w"] + [name] && Elements("/w") == ["w"]
  {
    SplitPiece("", "w", '/');
    SplitPiece("w", "", '/');
    SplitPiece(name, "", '/');
    assert "" + "/" + "w" == "/w";
    SplitConcat("/w", name, '/');
    assert "/w" + "/" + name == "/w/" + name;
    assert Split("/w", '/') == [""] + ["w"];
    assert ([""] + ["w"])[1..] == ["w"] && ["w"][1..] == [] && [name][1..] == [];
    EnterAllConcat(true, [], [""] + ["w"], [name]);
    assert [] + ["w"] == ["w"] && [] + [name] == [name];
    assert Enter(false, [], name) == [name] && EnterAll(false, [name], []) == [name];
  }

  /** A file of the workspace whose name begins with two dots has two keys. */
  lemma DottedNameHasTwoKeys()
    ensures HookFileKey(IsBlank, "/w", "..foo") == "..foo"
    ensures HookFileKey(IsBlank, "/w", "/w/..foo") == "/w/..foo"
  {
    TrimIsTrimmed("..foo", IsBlank);
    TrimIsTrimmed("/w/..foo", IsBlank);
    PathOfOne("..foo");
    assert "/w/" + "..foo" == "/w/..foo";
    RelBelow(["w"], ["..foo"]);
    assert (["w"] + ["..foo"])[1..] == ["..foo"];
  }

  // ----- the key of a key -----

  /** The characters of the components, with a separator to each. */
  function Size(es: seq<string>): nat {
    if es == [] then 0 else |es[0]| + 1 + Size(es[1..])
  }

  lemma {:induction false} JoinSize(es: seq<string>)
    ensures |Join(es, "/")| == if es == [] then 0 else Size(es) - 1
  {
    if es != [] {
      JoinSize(es[1..]);
    }
  }

  lemma {:induction false} SizeConcat(a: seq<string>, b: seq<string>)
    ensures Size(a + b) == Size(a) + Size(b)
  {
    if a == [] {
      assert a + b == b;
    } else {
      assert (a + b)[1..] == a[1..] + b;
      SizeConcat(a[1..], b);
    }
  }

  lemma {:induction false} EnterAllSize(rooted: bool, kept: seq<string>, cs: seq<string>)
    ensures Size(EnterAll(rooted, kept, cs)) <= Size(kept) + Size(cs)
    decreases |cs|
  {
    if cs != [] {
      EnterSize(rooted, kept, cs[0]);
      EnterAllSize(rooted, Enter(rooted, kept, cs[0]), cs[1..]);
    }
  }

  lemma EnterSize(rooted: bool, kept: seq<string>, c: string)
    ensures Size(Enter(rooted, kept, c)) <= Size(kept) + |c| + (if c == "" then 0 else 1)
  {
    SizeConcat(kept, [c]);
    if kept != [] {
      SizeConcat(kept[..|kept| - 1], kept[|kept| - 1..]);
      assert kept == kept[..|kept| - 1] + kept[|kept| - 1..];
    }
  }

  /** Cleaning lengthens no path but the empty one. */
  lemma CleanIsNoLonger(path: string)
    requires path != ""
    ensures |Clean(path)| <= |path|
  {
    var cs, es := Split(path, '/'), Elements(path);
    JoinSplit(path, '/');
    JoinSize(cs);
    JoinSize(es);
    if IsAbs(path) {
      assert Enter(true, [], cs[0]) == [];
      EnterAllSize(true, [], cs[1..]);
    } else {
      EnterAllSize(false, [], cs);
    }
  }

  lemma KeyIsNoLonger(base: seq<string>, target: seq<string>)
    requires Cleaned(true, target)
    ensures |KeyOf(base, target)| <= 1 + |Join(target, "/")|
  {
    var es := RelElements(base, target);
    RelativeKey(base, target);
    JoinSize(es);
    JoinSize(target);
    if !(".." <= RelativeText(es)) {
      SizeConcat(base, es);
    }
  }

  lemma OwnCleanKey(space: char -> bool, cwd: string, file: string)
    requires !(IsAbs(file) && IsAbs(cwd)) && Trimmed(Clean(file), space)
    ensures HookFileKey(space, cwd, Clean(file)) == Clean(file)
  {
    TrimIsTrimmed(Clean(file), space);
    CleanTwice(file);
    CleanKeepsThePath(file);
  }

  lemma OwnAbsoluteKey(space: char -> bool, cwd: string, file: string)
    requires IsAbs(file) && IsAbs(cwd)
    requires Trimmed(KeyOf(Elements(cwd), Elements(file)), space)
    ensures var key := KeyOf(Elements(cwd), Elements(file)); HookFileKey(space, cwd, key) == key
  {
    var key := KeyOf(Elements(cwd), Elements(file));
    KeyOfIsItsOwn(Elements(cwd), file);
    if IsAbs(key) {
      KeyOfTrimmed(space, cwd, key);
    } else {
      CleanKey(space, cwd, key);
    }
  }

  lemma KeyOfTrimmed(space: char -> bool, cwd: string, key: string)
    requires IsAbs(key) && IsAbs(cwd) && Trimmed(key, space)
    ensures HookFileKey(space, cwd, key) == KeyOf(Elements(cwd), Elements(key))
  {
    TrimIsTrimmed(key, space);
    AbsoluteKey(space, cwd, key);
  }

  lemma CleanKey(space: char -> bool, cwd: string, key: string)
    requires !IsAbs(key) && Trimmed(key, space)
    ensures HookFileKey(space, cwd, key) == Clean(key)
  {
    TrimIsTrimmed(key, space);
  }

  /** Without white space at its ends, a key is its own key. */
  lemma TrimmedKeyIsItsOwn(space: char -> bool, cwd: string, argument: string)
    requires Trimmed(HookFileKey(space, cwd, argument), space)
    ensures var key := HookFileKey(space, cwd, argument); HookFileKey(space, cwd, key) == key
  {
    var file := Trim(argument, space);
    if IsAbs(file) && IsAbs(cwd) {
      AbsoluteKey(space, cwd, argument);
      OwnAbsoluteKey(space, cwd, file);
    } else {
      OwnCleanKey(space, cwd, file);
    }
  }

  lemma KeyOfIsItsOwn(base: seq<string>, file: string)
    requires IsAbs(file)
    ensures var key := KeyOf(base, Elements(file));
            if IsAbs(key) then Elements(key) == Elements(file) else Clean(key) == key
  {
    CleanKeepsThePath(file);
    ElementsAreCleaned(file);
    RelativeKey(base, Elements(file));
    var es := RelElements(base, Elements(file));
    if !(".." <= RelativeText(es)) {
      ElementsOfText(es);
    }
  }

  lemma ElementsOfText(es: seq<string>)
    requires Cleaned(false, es)
    ensures Elements(RelativeText(es)) == es
  {
    RelativeTextSplits(es);
    assert [] + es == es;
    if es == [] {
      assert ["."][1..] == [];
    } else {
      EnterCleaned(false, [], es);
    }
  }

  lemma KeyIsShort(space: char -> bool, cwd: string, argument: string)
    requires Trim(argument, space) != ""
    ensures |HookFileKey(space, cwd, argument)| <= |Trim(argument, space)|
  {
    var file := Trim(argument, space);
    CleanIsNoLonger(file);
    if IsAbs(file) && IsAbs(cwd) {
      ElementsAreCleaned(file);
      KeyIsNoLonger(Elements(cwd), Elements(file));
    }
  }

  /** The key of a key is the key itself exactly when no white space stands at its ends. */
  lemma KeyOfKey(space: char -> bool, cwd: string, argument: string)
    requires !space('.')
    ensures var key := HookFileKey(space, cwd, argument);
            HookFileKey(space, cwd, key) == key <==> Trimmed(key, space)
  {
    var key := HookFileKey(space, cwd, argument);
    TrimIsTrimmed(key, space);
    if Trimmed(key, space) {
      TrimmedKeyIsItsOwn(space, cwd, argument);
    } else if Trim(key, space) == "" {
      EmptyHasDot(space, cwd, key);
    } else {
      KeyIsShort(space, cwd, key);
      TrimSize(key, space);
    }
  }

  lemma EmptyHasDot(space: char -> bool, cwd: string, key: string)
    requires Trim(key, space) == ""
    ensures HookFileKey(space, cwd, key) == "."
  {
    assert [""][1..] == [];
  }

  lemma TrimSize(s: string, space: char -> bool)
    ensures Trim(s, space) != s ==> |Trim(s, space)| < |s|
  {
    var left := TrimLeft(s, space);
    TrimLeftIs(s, space);
    TrimRightIs(left, space);
    if |TrimRight(left, space)| == |s| {
      assert left == s[0..];
    }
  }

  /** A file whose name begins with a blank has a key that is not its own. */
  lemma BlankNameLosesItsKey()
    ensures HookFileKey(IsBlank, "/w", "/w/ x") == " x" && HookFileKey(IsBlank, "/w", " x") == "x"
  {
    KeyOfBlankName();
    TrimmedBlankName();
    PathOfOne("x");
  }

  lemma KeyOfBlankName()
    ensures HookFileKey(IsBlank, "/w", "/w/ x") == " x"
  {
    TrimIsTrimmed("/w/ x", IsBlank);
    PathOfOne(" x");
    assert "/w/" + " x" == "/w/ x";
    RelBelow(["w"], [" x"]);
  }

  lemma TrimmedBlankName()
    ensures Trim(" x", IsBlank) == "x"
  {
    assert " x"[1..] == "x";
    TrimLeftIs("x", IsBlank);
    TrimRightIs("x", IsBlank);
  }
}
