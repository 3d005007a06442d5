/** The styled snapshot of a terminal row: cells of one style are grouped into runs, and each run
    is printed as an HTML span. */
module Snapshot {
  import opened Options
  import opened Text

  /** A cell of the screen buffer. */
  datatype Cell = Cell(
    data: string, fg: string, bg: string,
    bold: bool, italics: bool, underscore: bool, strikethrough: bool, reverse: bool)

  datatype Style = Style(fg: string, bg: string, bold: bool, italic: bool, under: bool, strike: bool)

  /** css_color with the default colours of the theme. */
  datatype Theme = Theme(css: (string, string) -> string, fg: string, bg: string)

  /** What a cell shows: its text, a space for an empty one, in its effective style. */
  datatype Ink = Ink(text: string, style: Style)

  datatype Run = Run(style: Style, texts: seq<string>)

  function InkOf(t: Theme, c: Cell): Ink {
    var fg, bg := t.css(c.fg, t.fg), t.css(c.bg, t.bg);
    Ink(if c.data == "" then " " else c.data,
        if c.reverse then Style(bg, fg, c.bold, c.italics, c.underscore, c.strikethrough)
        else Style(fg, bg, c.bold, c.italics, c.underscore, c.strikethrough))
  }

  function Inks(t: Theme, row: seq<Cell>): seq<Ink> {
    if row == [] then [] else Inks(t, row[..|row| - 1]) + [InkOf(t, row[|row| - 1])]
  }

  // ----- runs -----

  function Paint(style: Style, texts: seq<string>): seq<Ink> {
    if texts == [] then [] else [Ink(texts[0], style)] + Paint(style, texts[1..])
  }

  function Expand(runs: seq<Run>): seq<Ink> {
    if runs == [] then [] else Paint(runs[0].style, runs[0].texts) + Expand(runs[1..])
  }

  /** No run is empty, and no two neighbours share a style. */
  predicate Canonical(runs: seq<Run>) {
    runs == []
    || (runs[0].texts != [] && Canonical(runs[1..]) && (|runs| > 1 ==> runs[0].style != runs[1].style))
  }

  /** The runs of a row. */
  function Runs(inks: seq<Ink>): seq<Run> {
    if inks == [] then [] else Before(inks[0], Runs(inks[1..]))
  }

  function Before(ink: Ink, runs: seq<Run>): seq<Run> {
    if runs != [] && runs[0].style == ink.style
    then [Run(ink.style, [ink.text] + runs[0].texts)] + runs[1..]
    else [Run(ink.style, [ink.text])] + runs
  }

  lemma {:induction false} RunsExpand(inks: seq<Ink>)
    ensures Canonical(Runs(inks)) && Expand(Runs(inks)) == inks
    ensures inks != [] ==> Runs(inks) != [] && Runs(inks)[0].style == inks[0].style
  {
    if inks != [] {
      RunsExpand(inks[1..]);
      var ink, rest := inks[0], Runs(inks[1..]);
      var runs := Runs(inks);
      assert inks == [ink] + inks[1..];
      if rest != [] && rest[0].style == ink.style {
        assert runs[1..] == rest[1..];
        assert ([ink.text] + rest[0].texts)[1..] == rest[0].texts;
        assert Paint(ink.style, runs[0].texts) == [ink] + Paint(ink.style, rest[0].texts);
        assert [ink] + Paint(ink.style, rest[0].texts) + Expand(rest[1..]) == [ink] + Expand(rest);
      } else {
        assert runs[1..] == rest;
        assert [ink.text][1..] == [];
        assert Paint(ink.style, [ink.text]) == [ink];
      }
    }
  }

  lemma {:induction false} RunsOfExpanded(runs: seq<Run>)
    requires Canonical(runs)
    ensures Runs(Expand(runs)) == runs
    decreases |runs|, 0
  {
    if runs != [] {
      RunsOfExpanded(runs[1..]);
      RunsBehind(runs[0].style, runs[0].texts, runs[1..]);
      assert runs == [runs[0]] + runs[1..];
    }
  }

  lemma PaintAhead(style: Style, texts: seq<string>, rest: seq<Ink>)
    requires texts != []
    ensures Paint(style, texts) + rest == [Ink(texts[0], style)] + (Paint(style, texts[1..]) + rest)
  {
  }

  lemma RunsAhead(ink: Ink, rest: seq<Ink>)
    ensures Runs([ink] + rest) == Before(ink, Runs(rest))
  {
    assert ([ink] + rest)[1..] == rest;
  }

  lemma BeforeAlike(style: Style, text: string, texts: seq<string>, runs: seq<Run>)
    ensures Before(Ink(text, style), [Run(style, texts)] + runs) == [Run(style, [text] + texts)] + runs
  {
    assert ([Run(style, texts)] + runs)[1..] == runs;
  }

  lemma {:induction false} RunsBehind(style: Style, texts: seq<string>, runs: seq<Run>)
    requires Runs(Expand(runs)) == runs && texts != []
    requires runs != [] ==> runs[0].style != style
    ensures Runs(Paint(style, texts) + Expand(runs)) == [Run(style, texts)] + runs
  {
    var text, more := texts[0], texts[1..];
    PaintAhead(style, texts, Expand(runs));
    RunsAhead(Ink(text, style), Paint(style, more) + Expand(runs));
    assert [text] + more == texts;
    if more == [] {
      assert texts == [text];
      assert Paint(style, more) + Expand(runs) == Expand(runs);
    } else {
      RunsBehind(style, more, runs);
      BeforeAlike(style, text, more, runs);
    }
  }

  /** There is one way to group a row: runs that give the row back, none empty and no two
      neighbours alike, are its runs. */
  lemma TheRunsOfARow(inks: seq<Ink>, runs: seq<Run>)
    ensures Canonical(runs) && Expand(runs) == inks <==> runs == Runs(inks)
  {
    RunsExpand(inks);
    if Canonical(runs) && Expand(runs) == inks {
      RunsOfExpanded(runs);
    }
  }

  // ----- escaping -----

  /** The three replacements, one after another. */
  function Escape(s: string): string {
    Replace(Replace(Replace(s, "&", "&amp;"), "<", "&lt;"), ">", "&gt;")
  }

  function Entity(c: char): string {
    if c == '&' then "&amp;" else if c == '<' then "&lt;" else if c == '>' then "&gt;" else [c]
  }

  function EscapeEach(s: string): string {
    if s == "" then "" else Entity(s[0]) + EscapeEach(s[1..])
  }

  /** Reading the three character references back. */
  function Unescape(s: string): string {
    if s == "" then ""
    else if "&amp;" <= s then "&" + Unescape(s[5..])
    else if "&lt;" <= s then "<" + Unescape(s[4..])
    else if "&gt;" <= s then ">" + Unescape(s[4..])
    else [s[0]] + Unescape(s[1..])
  }

  lemma {:induction false} ReplaceConcat(a: string, b: string, c: char, with: string)
    ensures Replace(a + b, [c], with) == Replace(a, [c], with) + Replace(b, [c], with)
  {
    if a == "" {
      assert a + b == b;
    } else {
      assert (a + b)[1..] == a[1..] + b;
      ReplaceConcat(a[1..], b, c, with);
      assert [c] <= a <==> a[0] == c;
      assert [c] <= a + b <==> a[0] == c;
    }
  }

  lemma {:induction false} ReplaceAbsent(s: string, c: char, with: string)
    requires c !in s
    ensures Replace(s, [c], with) == s
  {
    if s != "" {
      ReplaceAbsent(s[1..], c, with);
      assert s == [s[0]] + s[1..];
    }
  }

  lemma ReplaceOne(c: char, with: string)
    ensures Replace([c], [c], with) == with
  {
    assert [c][1..] == "" && with + "" == with;
  }

  lemma EscapeOne(c: char)
    ensures Escape([c]) == Entity(c)
  {
    if c == '&' {
      ReplaceOne('&', "&amp;");
      ReplaceAbsent("&amp;", '<', "&lt;");
      ReplaceAbsent("&amp;", '>', "&gt;");
    } else {
      ReplaceAbsent([c], '&', "&amp;");
      if c == '<' {
        ReplaceOne('<', "&lt;");
        ReplaceAbsent("&lt;", '>', "&gt;");
      } else {
        ReplaceAbsent([c], '<', "&lt;");
        if c == '>' {
          ReplaceOne('>', "&gt;");
        } else {
          ReplaceAbsent([c], '>', "&gt;");
        }
      }
    }
  }

  /** In the order the three stand in, none replaces what another has put there. */
  lemma {:induction false} EscapesEachCharacter(s: string)
    ensures Escape(s) == EscapeEach(s)
  {
    if s != "" {
      var head, tail := [s[0]], s[1..];
      EscapesEachCharacter(tail);
      EscapeOne(s[0]);
      assert s == head + tail;
      ReplaceConcat(head, tail, '&', "&amp;");
      ReplaceConcat(Replace(head, "&", "&amp;"), Replace(tail, "&", "&amp;"), '<', "&lt;");
      var first, rest := Replace(head, "&", "&amp;"), Replace(tail, "&", "&amp;");
      ReplaceConcat(Replace(first, "<", "&lt;"), Replace(rest, "<", "&lt;"), '>', "&gt;");
    }
  }

  lemma UnescapeEntity(c: char, rest: string)
    ensures Unescape(Entity(c) + rest) == [c] + Unescape(rest)
  {
    var s := Entity(c) + rest;
    assert s[|Entity(c)|..] == rest;
    if c == '&' {
      assert "&amp;" <= s;
    } else if c == '<' {
      assert s[1] == 'l' && "&lt;" <= s;
    } else if c == '>' {
      assert s[1] == 'g' && "&gt;" <= s;
    } else {
      assert s[0] == c;
    }
  }

  /** The escaped text reads back, and cannot be taken for a tag. */
  lemma {:induction false} EscapeReadsBack(s: string)
    ensures Unescape(Escape(s)) == s
    ensures '<' !in Escape(s) && '>' !in Escape(s)
  {
    EscapesEachCharacter(s);
    if s != "" {
      EscapeReadsBack(s[1..]);
      EscapesEachCharacter(s[1..]);
      UnescapeEntity(s[0], EscapeEach(s[1..]));
      assert s == [s[0]] + s[1..];
      assert '<' !in Entity(s[0]) && '>' !in Entity(s[0]);
    }
  }

  // ----- spans -----

  function Concat(texts: seq<string>): string {
    if texts == [] then "" else texts[0] + Concat(texts[1..])
  }

  /** The declarations behind the two colours. */
  function Marks(s: Style): string {
    Weight(s.bold) + Shape(s.italic, s.under, s.strike)
  }

  /** Slant and lines, behind the weight. */
  function Shape(italic: bool, under: bool, strike: bool): string {
    Slant(italic) + Decoration(under, strike)
  }

  function Weight(bold: bool): string {
    if bold then "font-weight:bold;" else ""
  }

  function Slant(italic: bool): string {
    if italic then "font-style:italic;" else ""
  }

  function Decoration(under: bool, strike: bool): string {
    var deco := Lines(under, strike);
    if deco == [] then "" else "text-decoration:" + Join(deco, " ") + ";"
  }

  function Lines(under: bool, strike: bool): seq<string> {
    Picked("underline", "line-through", under, strike)
  }

  function Picked(a: string, b: string, first: bool, second: bool): seq<string> {
    (if first then [a] else []) + (if second then [b] else [])
  }

  function Css(s: Style): string {
    Declared(s.fg, s.bg, Marks(s))
  }

  function Declared(fg: string, bg: string, marks: string): string {
    "color:" + fg + ";background:" + bg + ";" + marks
  }

  const OPEN := "<span style=\""
  const CLOSE := "</span>"

  function Span(run: Run): string {
    OPEN + Css(run.style) + "\">" + Escape(Concat(run.texts)) + CLOSE
  }

  function Html(runs: seq<Run>): string {
    if runs == [] then "" else Span(runs[0]) + Html(runs[1..])
  }

  /** The grouping loop over one row, and the row it prints. */
  method RowHtml(t: Theme, row: seq<Cell>) returns (html: string)
    ensures html == Html(Runs(Inks(t, row)))
  {
    html := "";
    var runStyle: Option<Style>, runTexts: seq<string> := None, [];
    ghost var runs: seq<Run> := [];
    for x := 0 to |row|
      invariant html == Html(runs)
      invariant x == 0 <==> runTexts == []
      invariant x == 0 ==> runs == []
      invariant x > 0 ==> runStyle.Some?
      invariant x > 0 ==> Grouped(runs, Run(runStyle.value, runTexts), Inks(t, row[..x]))
    {
      var c := row[x];
      var fg, bg := t.css(c.fg, t.fg), t.css(c.bg, t.bg);
      if c.reverse {
        fg, bg := bg, fg;
      }
      var style := Style(fg, bg, c.bold, c.italics, c.underscore, c.strikethrough);
      var text := if c.data == "" then " " else c.data;
      InksStep(t, row, x, Ink(text, style));
      if x > 0 {
        GroupedStep(runs, Run(runStyle.value, runTexts), Inks(t, row[..x]), Ink(text, style));
      } else {
        FirstGrouped(Ink(text, style));
      }
      if Some(style) != runStyle && runTexts != [] {
        HtmlAppend(runs, Run(runStyle.value, runTexts));
        runs := runs + [Run(runStyle.value, runTexts)];
        html := html + Span(Run(runStyle.value, runTexts));
        runTexts := [];
      }
      assert [] + [text] == [text];
      runStyle := Some(style);
      runTexts := runTexts + [text];
    }
    assert row[..|row|] == row;
    if runTexts != [] {
      HtmlAppend(runs, Run(runStyle.value, runTexts));
      TheRunsOfARow(Inks(t, row), runs + [Run(runStyle.value, runTexts)]);
      html := html + Span(Run(runStyle.value, runTexts));
    }
  }

  lemma InksStep(t: Theme, row: seq<Cell>, x: nat, ink: Ink)
    requires x < |row| && ink == InkOf(t, row[x])
    ensures Inks(t, row[..x + 1]) == Inks(t, row[..x]) + [ink]
    ensures x == 0 ==> Inks(t, row[..x + 1]) == [ink]
  {
    assert row[..x + 1][..x] == row[..x];
  }

  /** The runs printed and the run at hand are those of the inks so far. */
  ghost predicate Grouped(runs: seq<Run>, last: Run, inks: seq<Ink>) {
    Canonical(runs + [last]) && Expand(runs + [last]) == inks
  }

  lemma FirstGrouped(ink: Ink)
    ensures Grouped([], Run(ink.style, [ink.text]), [ink])
  {
    TheRunsOfARow([ink], [Run(ink.style, [ink.text])]);
    assert [] + [Run(ink.style, [ink.text])] == [Run(ink.style, [ink.text])];
  }

  lemma {:induction false} HtmlAppend(runs: seq<Run>, last: Run)
    ensures Html(runs + [last]) == Html(runs) + Span(last)
  {
    if runs == [] {
      assert [last][1..] == [] && runs + [last] == [last];
      assert Span(last) + "" == Span(last);
    } else {
      assert (runs + [last])[1..] == runs[1..] + [last];
      HtmlAppend(runs[1..], last);
    }
  }

  lemma {:induction false} PaintAppend(style: Style, texts: seq<string>, text: string)
    ensures Paint(style, texts + [text]) == Paint(style, texts) + [Ink(text, style)]
  {
    if texts == [] {
      assert texts + [text] == [text] && [text][1..] == [];
    } else {
      assert (texts + [text])[1..] == texts[1..] + [text];
      PaintAppend(style, texts[1..], text);
    }
  }

  lemma PaintOne(ink: Ink)
    ensures Paint(ink.style, [ink.text]) == [ink]
  {
    assert [ink.text][1..] == [];
  }

  lemma {:induction false} GroupedStep(runs: seq<Run>, last: Run, inks: seq<Ink>, ink: Ink)
    requires Grouped(runs, last, inks)
    ensures if ink.style == last.style then Grouped(runs, Run(last.style, last.texts + [ink.text]), inks + [ink])
            else Grouped(runs + [last], Run(ink.style, [ink.text]), inks + [ink])
    decreases |runs|
  {
    var more := Run(last.style, last.texts + [ink.text]);
    var next := Run(ink.style, [ink.text]);
    if runs == [] {
      assert runs + [last] == [last] && runs + [more] == [more] && [last] + [next] == [last, next];
      assert [last][1..] == [] && [more][1..] == [] && [last, next][1..] == [next] && [next][1..] == [];
      PaintAppend(last.style, last.texts, ink.text);
      PaintOne(ink);
      assert Expand([last]) == Paint(last.style, last.texts);
      assert Expand([next]) == [ink];
    } else {
      assert (runs + [last])[1..] == runs[1..] + [last];
      GroupedStep(runs[1..], last, Expand(runs[1..] + [last]), ink);
      assert (runs + [more])[1..] == runs[1..] + [more];
      assert (runs + [last] + [next])[1..] == runs[1..] + [last] + [next];
      assert (runs + [last])[0] == runs[0] && (runs + [more])[0] == runs[0] && (runs + [last] + [next])[0] == runs[0];
      assert |runs| > 1 ==>
          (runs + [last])[1] == runs[1] && (runs + [more])[1] == runs[1] && (runs + [last] + [next])[1] == runs[1];
      assert inks + [ink] == Paint(runs[0].style, runs[0].texts) + (Expand(runs[1..] + [last]) + [ink]);
    }
  }

  // ----- reading a printed row -----

  /** s up to its first c, and from there on. */
  function Until(s: string, c: char): (r: (string, string))
    ensures s == r.0 + r.1 && c !in r.0 && (r.1 == "" || r.1[0] == c)
  {
    if s == "" || s[0] == c then ("", s)
    else
      var (before, rest) := Until(s[1..], c);
      ([s[0]] + before, rest)
  }

  lemma {:induction false} UntilFirst(a: string, b: string, c: char)
    requires c !in a && b != "" && b[0] == c
    ensures Until(a + b, c) == (a, b)
  {
    if a == "" {
      assert a + b == b;
    } else {
      assert (a + b)[1..] == a[1..] + b;
      UntilFirst(a[1..], b, c);
      assert a == [a[0]] + a[1..];
    }
  }

  /** A span as a browser reads it: its style attribute and its text. */
  function ReadSpan(html: string): (r: Option<(string, string, string)>)
    ensures r.Some? ==> |r.value.2| < |html|
  {
    ReadTag(OPEN, "\">", CLOSE, html)
  }

  function ReadTag(open: string, mark: string, close: string, html: string): (r: Option<(string, string, string)>)
    requires open != ""
    ensures r.Some? ==> |r.value.2| < |html|
  {
    if !(open <= html) then None
    else
      var (css, afterCss) := Until(html[|open|..], '"');
      if !(mark <= afterCss) then None
      else
        var (text, afterText) := Until(afterCss[|mark|..], '<');
        if !(close <= afterText) then None else Some((css, Unescape(text), afterText[|close|..]))
  }

  /** A style attribute as a browser reads it: declarations end at a ';', the last one counts. */
  function ReadCss(css: string): Style {
    DeclareAll(Style("", "", false, false, false, false), Split(css, ';'))
  }

  function DeclareAll(s: Style, declarations: seq<string>): Style
    decreases |declarations|
  {
    if declarations == [] then s else DeclareAll(Declare(s, declarations[0]), declarations[1..])
  }

  function Declare(s: Style, d: string): Style {
    if "color:" <= d then s.(fg := d[6..])
    else if "background:" <= d then s.(bg := d[11..])
    else if d == "font-weight:bold" then s.(bold := true)
    else if d == "font-style:italic" then s.(italic := true)
    else if "text-decoration:" <= d then
      var lines := Split(d[16..], ' ');
      s.(under := "underline" in lines, strike := "line-through" in lines)
    else s
  }

  /** A row as a browser shows it: its letters, each in the style of its span. */
  function ReadRow(html: string): Option<seq<Ink>>
    decreases |html|
  {
    if html == "" then Some([])
    else
      match ReadSpan(html)
      case None => None
      case Some((css, text, rest)) =>
        match ReadRow(rest)
        case None => None
        case Some(inks) => Some(Letters(ReadCss(css), text) + inks)
  }

  function Letters(style: Style, text: string): seq<Ink> {
    if text == "" then [] else [Ink([text[0]], style)] + Letters(style, text[1..])
  }

  /** The colours end before any ';' and no quote closes the attribute. */
  predicate PlainStyle(s: Style) {
    '"' !in s.fg && '"' !in s.bg && ';' !in s.fg && ';' !in s.bg
  }

  // ----- the declarations -----

  /** What the declarations of s, printed in front of others, leave to these. */
  function ReadOn(s: Style, css: string): Style {
    DeclareAll(s, Split(css, ';'))
  }

  lemma ReadOne(s: Style, d: string, rest: string)
    requires ';' !in d
    ensures ReadOn(s, d + ";" + rest) == ReadOn(Declare(s, d), rest)
  {
    SplitPiece(d, rest, ';');
    assert ([d] + Split(rest, ';'))[1..] == Split(rest, ';');
  }

  lemma DeclaresColor(s: Style, v: string)
    requires ';' !in v
    ensures var d := "color:" + v; ';' !in d && Declare(s, d) == s.(fg := v)
  {
    var d := "color:" + v;
    assert d[..6] == "color:" && d[6..] == v;
  }

  lemma DeclaresBackground(s: Style, v: string)
    requires ';' !in v
    ensures var d := "background:" + v; ';' !in d && Declare(s, d) == s.(bg := v)
  {
    var d := "background:" + v;
    assert d[0] == 'b' && d[11..] == v;
  }

  lemma DeclaresBold(s: Style)
    ensures var d := "font-weight:bold"; ';' !in d && Declare(s, d) == s.(bold := true)
  {
    assert "font-weight:bold"[0] == 'f';
  }

  lemma DeclaresItalic(s: Style)
    ensures var d := "font-style:italic"; ';' !in d && Declare(s, d) == s.(italic := true)
  {
    assert "font-style:italic"[5] == 's' && "font-weight:bold"[5] == 'w' && "font-style:italic"[0] == 'f';
  }

  lemma DeclaresLines(s: Style, v: string)
    requires ';' !in v
    ensures var d := "text-decoration:" + v;
            && ';' !in d && ('"' !in v ==> '"' !in d)
            && Declare(s, d) == s.(under := "underline" in Split(v, ' '), strike := "line-through" in Split(v, ' '))
  {
    var d := "text-decoration:" + v;
    assert d[0] == 't' && d[..16] == "text-decoration:" && d[16..] == v;
  }

  lemma LinesRead(under: bool, strike: bool)
    requires under || strike
    ensures var v := Join(Lines(under, strike), " ");
            && ';' !in v && '"' !in v
            && ("underline" in Split(v, ' ') <==> under) && ("line-through" in Split(v, ' ') <==> strike)
  {
    LineWords();
    PickedRead("underline", "line-through", under, strike);
  }

  lemma PickedRead(a: string, b: string, first: bool, second: bool)
    requires first || second
    requires LinePlain(a) && LinePlain(b) && a != b
    ensures var v := Join(Picked(a, b, first, second), " ");
            && ';' !in v && '"' !in v
            && (a in Split(v, ' ') <==> first) && (b in Split(v, ' ') <==> second)
  {
    var words := Picked(a, b, first, second);
    SplitJoin(words, ' ');
    JoinLacks(words, " ", ';');
    JoinLacks(words, " ", '"');
  }

  predicate LinePlain(word: string) {
    ' ' !in word && ';' !in word && '"' !in word
  }

  lemma LineWords()
    ensures LinePlain("underline") && LinePlain("line-through") && "underline" != "line-through"
  {
    assert "underline"[0] == 'u';
  }

  lemma {:induction false} JoinLacks(parts: seq<string>, sep: string, c: char)
    requires c !in sep && forall p :: p in parts ==> c !in p
    ensures c !in Join(parts, sep)
  {
    if |parts| > 1 {
      JoinLacks(parts[1..], sep, c);
    }
  }

  // ----- the four kinds of declaration, where they stand -----

  lemma WeightRead(s: Style, bold: bool, rest: string)
    requires !s.bold
    ensures ReadOn(s, Weight(bold) + rest) == ReadOn(s.(bold := bold), rest)
    ensures '"' !in Weight(bold)
  {
    if bold {
      DeclaresBold(s);
      ReadOne(s, "font-weight:bold", rest);
      assert "font-weight:bold" + ";" == Weight(bold);
    } else {
      assert Weight(bold) + rest == rest;
    }
  }

  lemma SlantRead(s: Style, italic: bool, rest: string)
    requires !s.italic
    ensures ReadOn(s, Slant(italic) + rest) == ReadOn(s.(italic := italic), rest)
    ensures '"' !in Slant(italic)
  {
    if italic {
      DeclaresItalic(s);
      ReadOne(s, "font-style:italic", rest);
      assert "font-style:italic" + ";" == Slant(italic);
    } else {
      assert Slant(italic) + rest == rest;
    }
  }

  lemma DecorationRead(s: Style, under: bool, strike: bool)
    requires !s.under && !s.strike
    ensures ReadOn(s, Decoration(under, strike)) == s.(under := under, strike := strike)
    ensures '"' !in Decoration(under, strike)
  {
    if under || strike {
      LinesRead(under, strike);
      DeclaresLines(s, Join(Lines(under, strike), " "));
      DecorationText(under, strike);
      ReadLast(s, "text-decoration:" + Join(Lines(under, strike), " "));
    } else {
      ReadNothing(s);
    }
  }

  lemma DecorationText(under: bool, strike: bool)
    requires under || strike
    requires var v := Join(Lines(under, strike), " "); '"' !in v && '"' !in "text-decoration:" + v
    ensures var v := Join(Lines(under, strike), " ");
            Decoration(under, strike) == "text-decoration:" + v + ";" && '"' !in Decoration(under, strike)
  {
  }

  lemma ReadLast(s: Style, d: string)
    requires ';' !in d
    ensures ReadOn(s, d + ";") == Declare(s, d)
  {
    ReadOne(s, d, "");
    ReadNothing(Declare(s, d));
    assert d + ";" + "" == d + ";";
  }

  lemma ReadNothing(s: Style)
    ensures ReadOn(s, "") == s
  {
    assert Split("", ';') == [""] && [""][1..] == [];
  }

  lemma ShapeRead(s: Style, italic: bool, under: bool, strike: bool)
    requires !s.italic && !s.under && !s.strike
    ensures ReadOn(s, Shape(italic, under, strike)) == s.(italic := italic, under := under, strike := strike)
    ensures '"' !in Shape(italic, under, strike)
  {
    SlantRead(s, italic, Decoration(under, strike));
    DecorationRead(s.(italic := italic), under, strike);
  }

  lemma MarksRead(s: Style, bold: bool, italic: bool, under: bool, strike: bool)
    requires !s.bold && !s.italic && !s.under && !s.strike
    ensures var marks := Marks(Style(s.fg, s.bg, bold, italic, under, strike));
            '"' !in marks && ReadOn(s, marks) == Style(s.fg, s.bg, bold, italic, under, strike)
  {
    WeightRead(s, bold, Shape(italic, under, strike));
    ShapeRead(s.(bold := bold), italic, under, strike);
  }

  lemma ColorsRead(fg: string, bg: string, marks: string)
    requires ';' !in fg && ';' !in bg
    ensures ReadCss(Declared(fg, bg, marks)) == ReadOn(Style(fg, bg, false, false, false, false), marks)
  {
    var s := Style("", "", false, false, false, false);
    DeclaresColor(s, fg);
    DeclaresBackground(s.(fg := fg), bg);
    var first, second := "color:" + fg, "background:" + bg;
    ReadOne(s, first, second + ";" + marks);
    ReadOne(s.(fg := fg), second, marks);
    assert ";background:" == ";" + "background:";
    InFront(first, "background:", bg, marks);
  }

  lemma InFront(first: string, name: string, bg: string, marks: string)
    ensures first + (";" + name) + bg + ";" + marks == first + ";" + (name + bg + ";" + marks)
  {
  }

  lemma DeclaredIsPlain(fg: string, bg: string, marks: string)
    requires '"' !in fg && '"' !in bg && '"' !in marks
    ensures '"' !in Declared(fg, bg, marks)
  {
  }

  /** A printed style reads back. */
  lemma PrintedStyleReadsBack(s: Style)
    requires PlainStyle(s)
    ensures ReadCss(Css(s)) == s && '"' !in Css(s)
  {
    var marks := Marks(s);
    assert '"' !in marks && ReadOn(Style(s.fg, s.bg, false, false, false, false), marks) == s by {
      MarksRead(Style(s.fg, s.bg, false, false, false, false), s.bold, s.italic, s.under, s.strike);
    }
    ColorsRead(s.fg, s.bg, marks);
    DeclaredIsPlain(s.fg, s.bg, marks);
  }

  // ----- the row -----

  lemma ReadsSpan(run: Run, rest: string)
    requires PlainStyle(run.style)
    ensures ReadSpan(Span(run) + rest) == Some((Css(run.style), Concat(run.texts), rest))
  {
    PrintedStyleReadsBack(run.style);
    EscapeReadsBack(Concat(run.texts));
    FromTheRight(OPEN, Css(run.style), "\">", Escape(Concat(run.texts)), CLOSE, rest);
    ReadsTag(OPEN, Css(run.style), "\">", Escape(Concat(run.texts)), CLOSE, rest);
  }

  lemma FromTheRight(a: string, b: string, c: string, d: string, e: string, f: string)
    ensures a + b + c + d + e + f == a + (b + (c + (d + (e + f))))
  {
  }

  lemma ReadsTag(open: string, css: string, mark: string, esc: string, close: string, rest: string)
    requires open != "" && mark != "" && mark[0] == '"' && close != "" && close[0] == '<'
    requires '"' !in css && '<' !in esc
    ensures ReadTag(open, mark, close, open + (css + (mark + (esc + (close + rest)))))
         == Some((css, Unescape(esc), rest))
  {
    Behind(open, css + (mark + (esc + (close + rest))));
    UntilFirst(css, mark + (esc + (close + rest)), '"');
    Behind(mark, esc + (close + rest));
    UntilFirst(esc, close + rest, '<');
    Behind(close, rest);
  }

  lemma Behind(a: string, b: string)
    ensures a <= a + b && (a + b)[|a|..] == b
  {
  }

  lemma {:induction false} LettersConcat(style: Style, a: string, b: string)
    ensures Letters(style, a + b) == Letters(style, a) + Letters(style, b)
  {
    if a == "" {
      assert a + b == b;
    } else {
      assert (a + b)[1..] == a[1..] + b;
      LettersConcat(style, a[1..], b);
    }
  }

  /** The letters of what the cells show. */
  function Shown(inks: seq<Ink>): seq<Ink> {
    if inks == [] then [] else Letters(inks[0].style, inks[0].text) + Shown(inks[1..])
  }

  lemma {:induction false} ShownConcat(a: seq<Ink>, b: seq<Ink>)
    ensures Shown(a + b) == Shown(a) + Shown(b)
  {
    if a == [] {
      assert a + b == b;
    } else {
      assert (a + b)[1..] == a[1..] + b;
      ShownConcat(a[1..], b);
    }
  }

  lemma {:induction false} ShownPaint(style: Style, texts: seq<string>)
    ensures Shown(Paint(style, texts)) == Letters(style, Concat(texts))
  {
    if texts != [] {
      ShownPaint(style, texts[1..]);
      LettersConcat(style, texts[0], Concat(texts[1..]));
      assert Paint(style, texts)[1..] == Paint(style, texts[1..]);
    }
  }

  /** A printed row shows the letters of its runs, each in the style of its run. */
  lemma {:induction false} PrintedRowReadsBack(runs: seq<Run>)
    requires forall r :: r in runs ==> PlainStyle(r.style)
    ensures ReadRow(Html(runs)) == Some(Shown(Expand(runs)))
  {
    if runs != [] {
      var run := runs[0];
      PrintedRowReadsBack(runs[1..]);
      ReadsSpan(run, Html(runs[1..]));
      PrintedStyleReadsBack(run.style);
      ShownPaint(run.style, run.texts);
      ShownConcat(Paint(run.style, run.texts), Expand(runs[1..]));
      assert Html(runs) != "";
    }
  }

  lemma {:induction false} RunsArePlain(inks: seq<Ink>)
    requires forall i :: i in inks ==> PlainStyle(i.style)
    ensures forall r :: r in Runs(inks) ==> PlainStyle(r.style)
  {
    if inks != [] {
      RunsArePlain(inks[1..]);
      var rest := Runs(inks[1..]);
      assert inks[0] in inks;
      if rest != [] {
        assert PlainStyle(rest[0].style);
      }
    }
  }

  lemma {:induction false} SingleLetters(inks: seq<Ink>)
    requires forall i :: i in inks ==> |i.text| == 1
    ensures Shown(inks) == inks
  {
    if inks != [] {
      var ink := inks[0];
      assert ink in inks;
      SingleLetters(inks[1..]);
      assert ink.text == [ink.text[0]] && ink.text[1..] == "";
      assert Letters(ink.style, ink.text) == [ink];
      assert inks == [ink] + inks[1..];
    }
  }

  /** Two rows of one-character cells print alike only if every cell shows the same character in
      the same effective style. */
  lemma PrintedRowTellsTheCells(a: seq<Ink>, b: seq<Ink>)
    requires forall i :: i in a + b ==> PlainStyle(i.style) && |i.text| == 1
    requires Html(Runs(a)) == Html(Runs(b))
    ensures a == b
  {
    assert forall i :: i in a ==> i in a + b;
    assert forall i :: i in b ==> i in a + b;
    PrintedInksReadBack(a);
    PrintedInksReadBack(b);
  }

  lemma PrintedInksReadBack(inks: seq<Ink>)
    requires forall i :: i in inks ==> PlainStyle(i.style) && |i.text| == 1
    ensures ReadRow(Html(Runs(inks))) == Some(inks)
  {
    RunsArePlain(inks);
    RunsExpand(inks);
    PrintedRowReadsBack(Runs(inks));
    SingleLetters(inks);
  }

  // ----- what a row shows of its cells -----

  /** The letter of a cell: its own character, a blank for an empty cell. */
  predicate ShowsText(c: Cell, text: string) {
    text == c.data || (c.data == "" && text == " ")
  }

  /** The two colours of a cell, exchanged exactly where it is shown in reverse. */
  predicate ShowsColors(t: Theme, c: Cell, front: string, back: string) {
    var pair := (t.css(c.fg, t.fg), t.css(c.bg, t.bg));
    if c.reverse then (back, front) == pair else (front, back) == pair
  }

  predicate ShowsMarks(c: Cell, s: Style) {
    (s.bold <==> c.bold) && (s.italic <==> c.italics) && (s.under <==> c.underscore) && (s.strike <==> c.strikethrough)
  }

  predicate Shows(t: Theme, c: Cell, ink: Ink) {
    && ShowsText(c, ink.text) && |ink.text| == 1
    && ShowsColors(t, c, ink.style.fg, ink.style.bg) && ShowsMarks(c, ink.style)
  }

  lemma {:induction false} InksShowTheCells(t: Theme, row: seq<Cell>)
    requires forall c :: c in row ==> |c.data| <= 1
    ensures |Inks(t, row)| == |row|
    ensures forall x :: 0 <= x < |row| ==> Inks(t, row)[x] == InkOf(t, row[x]) && Shows(t, row[x], Inks(t, row)[x])
  {
    if row != [] {
      InksShowTheCells(t, row[..|row| - 1]);
    }
  }

  /** The row that is printed shows, read back, one letter for each cell: its character, with the
      colours exchanged where it is reversed, and with exactly the marks it has. */
  lemma PrintedRowShowsTheCells(t: Theme, row: seq<Cell>)
    requires forall value, default_ :: PlainColor(t.css(value, default_))
    requires forall c :: c in row ==> |c.data| <= 1
    ensures var seen := ReadRow(Html(Runs(Inks(t, row))));
            && seen.Some? && |seen.value| == |row|
            && (forall x :: 0 <= x < |row| ==> Shows(t, row[x], seen.value[x]))
  {
    InksShowTheCells(t, row);
    var inks := Inks(t, row);
    forall i | i in inks
      ensures PlainStyle(i.style) && |i.text| == 1
    {
      var x :| 0 <= x < |inks| && inks[x] == i;
      assert Shows(t, row[x], inks[x]);
    }
    PrintedInksReadBack(inks);
  }

  predicate PlainColor(color: string) {
    '"' !in color && ';' !in color
  }
}
