/** The element a piped stdin becomes: its body in CDATA sections (XML 1.0, section 2.7), split
    where the body itself holds the end of a section. */
module Cdata {
  import opened Options
  import opened Text

  const OPEN := "<![CDATA["
  const CLOSE := "]]>"
  const SPLIT := "]]]]><![CDATA[>"
  const HEAD := "<coddy_attachment path=\"stdin\" name=\"stdin\" kind=\"stdin\">\n"
  const FOOT := "\n</coddy_attachment>"

  function Escape(body: string): string {
    Replace(body, CLOSE, SPLIT)
  }

  /** stdin_attachment. */
  function StdinAttachment(body: string): string {
    HEAD + OPEN + Escape(body) + CLOSE + FOOT
  }

  // ----- an XML reader -----

  /** The rest of a section, up to its first CLOSE, and of the sections that follow it without a
      gap: their text, and what is left after the last of them. */
  function ReadSection(s: string): Option<(string, string)> {
    if s == "" then None
    else if CLOSE <= s then
      if OPEN <= s[|CLOSE|..] then ReadSection(s[|CLOSE| + |OPEN|..]) else Some(("", s[|CLOSE|..]))
    else
      match ReadSection(s[1..])
      case Some((text, rest)) => Some(([s[0]] + text, rest))
      case None => None
  }

  /** The text of an attachment element, if the string is exactly one. */
  function ReadAttachment(s: string): Option<string> {
    if HEAD + OPEN <= s then
      match ReadSection(s[|HEAD + OPEN|..])
      case Some((text, rest)) => if rest == FOOT then Some(text) else None
      case None => None
    else None
  }

  // ----- the reader undoes the writer -----

  /** Escaping never makes an end of section where the body has none: after an escaped body
      comes its own first characters, then those of what follows. */
  lemma EscapeStart(body: string, tail: string)
    requires body != "" && !(CLOSE <= body)
    ensures Escape(body) == [body[0]] + Escape(body[1..])
    ensures !(CLOSE <= Escape(body) + CLOSE + tail)
  {
    var s := Escape(body) + CLOSE + tail;
    if body[0] == ']' && |body| >= 2 {
      var next := body[1..];
      if CLOSE <= next {
        assert Escape(next) == SPLIT + Escape(next[3..]);
        assert s[2] == ']';
      } else {
        assert Escape(next) == [next[0]] + Escape(next[1..]);
        if |body| >= 3 {
          var last := body[2..];
          assert Escape(last)[0] == last[0] by {
            if CLOSE <= last {
              assert Escape(last) == SPLIT + Escape(last[3..]);
            }
          }
          assert body[..3] == [body[0], body[1], body[2]];
          assert s[..3] == body[..3];
        } else {
          assert s[2] == ']';
        }
      }
    } else if body[0] == ']' {
      assert Escape(body[1..]) == "";
      assert s[2] == ']';
    } else {
      assert s[0] == body[0];
    }
  }

  lemma ReadChar(c: char, s: string)
    requires !(CLOSE <= [c] + s) && ReadSection(s).Some?
    ensures ReadSection([c] + s) == Some(([c] + ReadSection(s).value.0, ReadSection(s).value.1))
  {
    assert ([c] + s)[1..] == s;
  }

  lemma ReadJoin(s: string)
    ensures ReadSection(CLOSE + OPEN + s) == ReadSection(s)
  {
    var t := CLOSE + OPEN + s;
    assert t[|CLOSE|..] == OPEN + s;
    assert t[|CLOSE| + |OPEN|..] == s;
  }

  /** Brackets before an end of section are text. */
  lemma ReadBrackets(s: string)
    requires CLOSE <= s && ReadSection(s).Some?
    ensures ReadSection("]]" + s) == Some(("]]" + ReadSection(s).value.0, ReadSection(s).value.1))
  {
    var s1 := [']'] + s;
    assert s1[2] == ']';
    ReadChar(']', s);
    assert ([']'] + s1)[2] == ']';
    ReadChar(']', s1);
    assert [']'] + s1 == "]]" + s;
    assert [']'] + ([']'] + ReadSection(s).value.0) == "]]" + ReadSection(s).value.0;
  }

  /** The split inside an escaped body reads as the end of section it replaced. */
  lemma SplitReads(rest: string)
    requires ReadSection(rest).Some?
    ensures ReadSection(SPLIT + rest) == Some((CLOSE + ReadSection(rest).value.0, ReadSection(rest).value.1))
  {
    var text := ReadSection(rest).value.0;
    var s := CLOSE + OPEN + (['>'] + rest);
    SplitParts(rest, text);
    assert (['>'] + rest)[0] != CLOSE[0];
    ReadChar('>', rest);
    ReadJoin(['>'] + rest);
    ReadBrackets(s);
  }

  lemma SplitParts(rest: string, text: string)
    ensures SPLIT + rest == "]]" + (CLOSE + OPEN + (['>'] + rest))
    ensures "]]" + (['>'] + text) == CLOSE + text
  {
  }

  lemma {:induction false} ReadEscaped(body: string, tail: string)
    requires !(OPEN <= tail)
    ensures ReadSection(Escape(body) + CLOSE + tail) == Some((body, tail))
  {
    var s := Escape(body) + CLOSE + tail;
    if body == "" {
      assert s == CLOSE + tail && s[|CLOSE|..] == tail;
    } else if CLOSE <= body {
      var rest := body[|CLOSE|..];
      assert body == CLOSE + rest;
      assert s == SPLIT + (Escape(rest) + CLOSE + tail);
      ReadEscaped(rest, tail);
      SplitReads(Escape(rest) + CLOSE + tail);
    } else {
      EscapeStart(body, tail);
      ReadEscaped(body[1..], tail);
      assert s[1..] == Escape(body[1..]) + CLOSE + tail;
      assert body == [body[0]] + body[1..];
    }
  }

  /** For every body, whatever runs of ']' and '>' it has, the element reads back as exactly that
      body: none closes it early. */
  lemma AttachmentReadsBack(body: string)
    ensures ReadAttachment(StdinAttachment(body)) == Some(body)
  {
    var s := StdinAttachment(body);
    assert s == (HEAD + OPEN) + (Escape(body) + CLOSE + FOOT);
    assert s[|HEAD + OPEN|..] == Escape(body) + CLOSE + FOOT;
    assert FOOT[0] != OPEN[0];
    ReadEscaped(body, FOOT);
  }

  lemma AttachmentIsInjective(a: string, b: string)
    requires StdinAttachment(a) == StdinAttachment(b)
    ensures a == b
  {
    AttachmentReadsBack(a);
    AttachmentReadsBack(b);
  }

  /** Without the replacement the element would read back exactly for the bodies that do not hold
      an end of section. */
  lemma {:induction false} ReadUnescaped(body: string, tail: string)
    requires !(OPEN <= tail)
    ensures ReadSection(body + CLOSE + tail) == Some((body, tail)) <==> !Contains(body, CLOSE)
  {
    var s := body + CLOSE + tail;
    if body == "" {
      assert s == CLOSE + tail && s[|CLOSE|..] == tail;
      assert !Contains(body, CLOSE);
    } else if CLOSE <= body {
      assert OccursAt(body, CLOSE, 0);
      assert CLOSE <= s;
      ReadIsShort(s);
    } else {
      assert s[1..] == body[1..] + CLOSE + tail;
      ReadUnescaped(body[1..], tail);
      ContainsTail(body, CLOSE);
      NoEndAcross(body, tail);
      assert body == [body[0]] + body[1..];
    }
  }

  lemma NoEndAcross(body: string, tail: string)
    requires body != "" && !(CLOSE <= body)
    ensures !(CLOSE <= body + CLOSE + tail)
  {
    var s := body + CLOSE + tail;
    if |body| >= 3 {
      assert s[..3] == body[..3];
    } else {
      assert s[2] == ']';
    }
  }

  lemma ContainsTail(s: string, p: string)
    requires s != "" && p != "" && !(p <= s)
    ensures Contains(s, p) <==> Contains(s[1..], p)
  {
    if Contains(s, p) {
      var i :| 0 <= i <= |s| && OccursAt(s, p, i);
      assert OccursAt(s, p, 0) ==> p <= s;
      assert s[1..][i - 1..i - 1 + |p|] == s[i..i + |p|];
      assert OccursAt(s[1..], p, i - 1);
    }
    if Contains(s[1..], p) {
      var i :| 0 <= i <= |s[1..]| && OccursAt(s[1..], p, i);
      assert s[1..][i..i + |p|] == s[i + 1..i + 1 + |p|];
      assert OccursAt(s, p, i + 1);
    }
  }

  /** Text and rest never add up to more than what was read, less the end of section. */
  lemma {:induction false} ReadIsShort(s: string)
    ensures ReadSection(s).Some? ==> |ReadSection(s).value.0| + |ReadSection(s).value.1| + |CLOSE| <= |s|
    ensures CLOSE <= s && ReadSection(s).Some? ==>
              ReadSection(s).value.0 == "" || |ReadSection(s).value.0| + |ReadSection(s).value.1| + |CLOSE| < |s|
  {
    if s != "" {
      if CLOSE <= s {
        if OPEN <= s[|CLOSE|..] {
          ReadIsShort(s[|CLOSE| + |OPEN|..]);
        }
      } else {
        ReadIsShort(s[1..]);
      }
    }
  }
}
