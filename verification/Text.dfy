/** Strings as the Go and Python sources use them: splitting and joining, replacing,
    trimming, and decimal printing, each with the laws the other modules rest on. */
module Text {

  // ----- splitting and joining -----

  /** A character put in front of the pieces of what follows it. */
  function Prepend(c: char, pieces: seq<string>, sep: char): seq<string>
    requires pieces != []
  {
    if c == sep then [""] + pieces else [[c] + pieces[0]] + pieces[1..]
  }

  /** strings.Split with a one-character separator: always at least one piece. */
  function Split(s: string, sep: char): (parts: seq<string>)
    ensures |parts| >= 1
    ensures forall p :: p in parts ==> sep !in p
  {
    if s == "" then [""]
    else
      var rest := Split(s[1..], sep);
      Prepend(s[0], rest, sep)
  }

  /** strings.Join, and Python's str.join. */
  function Join(parts: seq<string>, sep: string): string {
    if |parts| == 0 then ""
    else if |parts| == 1 then parts[0]
    else parts[0] + sep + Join(parts[1..], sep)
  }

  lemma {:induction false} JoinSplit(s: string, sep: char)
    ensures Join(Split(s, sep), [sep]) == s
  {
    if s == "" {
    } else {
      JoinSplit(s[1..], sep);
      var rest := Split(s[1..], sep);
      assert s == [s[0]] + s[1..];
      if s[0] != sep {
        assert Split(s, sep)[1..] == rest[1..];
      } else {
        assert ([""] + rest)[1..] == rest;
      }
    }
  }

  lemma {:induction false} SplitPiece(p: string, rest: string, sep: char)
    requires sep !in p
    ensures Split(p, sep) == [p]
    ensures Split(p + [sep] + rest, sep) == [p] + Split(rest, sep)
  {
    if p == "" {
      assert p + [sep] + rest == [sep] + rest;
    } else {
      SplitPiece(p[1..], rest, sep);
      assert p == [p[0]] + p[1..];
      assert (p + [sep] + rest)[1..] == p[1..] + [sep] + rest;
    }
  }

  lemma {:induction false} SplitJoin(parts: seq<string>, sep: char)
    requires |parts| >= 1
    requires forall p :: p in parts ==> sep !in p
    ensures Split(Join(parts, [sep]), sep) == parts
  {
    if |parts| == 1 {
      SplitPiece(parts[0], "", sep);
    } else {
      SplitJoin(parts[1..], sep);
      SplitPiece(parts[0], Join(parts[1..], [sep]), sep);
      assert parts == [parts[0]] + parts[1..];
    }
  }

  lemma {:induction false} SplitConcat(a: string, b: string, sep: char)
    ensures Split(a + [sep] + b, sep) == Split(a, sep) + Split(b, sep)
  {
    var s, y := a + [sep] + b, Split(b, sep);
    if a == "" {
      assert s[0] == sep && s[1..] == b;
    } else {
      SplitConcat(a[1..], b, sep);
      assert s[0] == a[0] && s[1..] == a[1..] + [sep] + b;
      PrependConcat(a[0], Split(a[1..], sep), y, sep);
    }
  }

  lemma PrependConcat(c: char, x: seq<string>, y: seq<string>, sep: char)
    requires x != []
    ensures Prepend(c, x + y, sep) == Prepend(c, x, sep) + y
  {
    assert (x + y)[0] == x[0] && (x + y)[1..] == x[1..] + y;
  }

  lemma {:induction false} JoinAppend(parts: seq<string>, last: string, sep: string)
    requires parts != []
    ensures Join(parts + [last], sep) == Join(parts, sep) + sep + last
  {
    var all := parts + [last];
    assert all[1..] == parts[1..] + [last];
    if |parts| > 1 {
      JoinAppend(parts[1..], last, sep);
      var first, rest := parts[0], Join(parts[1..], sep);
      assert first + sep + (rest + sep + last) == first + sep + rest + sep + last;
    }
  }

  // ----- replacing -----

  /** Python's str.replace and strings.ReplaceAll for a non-empty pattern: leftmost
      occurrences, not overlapping. */
  function Replace(s: string, pattern: string, with: string): string
    requires |pattern| > 0
  {
    if s == "" then ""
    else if pattern <= s then with + Replace(s[|pattern|..], pattern, with)
    else [s[0]] + Replace(s[1..], pattern, with)
  }

  /** pattern occurs in s, starting at position i. */
  predicate OccursAt(s: string, pattern: string, i: nat) {
    i + |pattern| <= |s| && s[i..i + |pattern|] == pattern
  }

  predicate Contains(s: string, pattern: string) {
    exists i :: 0 <= i <= |s| && OccursAt(s, pattern, i)
  }

  // ----- trimming -----

  function TrimLeft(s: string, space: char -> bool): string {
    if s != "" && space(s[0]) then TrimLeft(s[1..], space) else s
  }

  function TrimRight(s: string, space: char -> bool): string {
    if s != "" && space(s[|s| - 1]) then TrimRight(s[..|s| - 1], space) else s
  }

  /** What is left of s: its end, from the first character that is no space. */
  lemma {:induction false} TrimLeftIs(s: string, space: char -> bool)
    ensures var r := TrimLeft(s, space);
            && |r| <= |s| && r == s[|s| - |r|..]
            && (r == "" || !space(r[0]))
            && (r == s <==> s == "" || !space(s[0]))
  {
    if s != "" && space(s[0]) {
      TrimLeftIs(s[1..], space);
    }
  }

  lemma {:induction false} TrimRightIs(s: string, space: char -> bool)
    ensures var r := TrimRight(s, space);
            && |r| <= |s| && r == s[..|r|]
            && (r == "" || !space(r[|r| - 1]))
            && (r == s <==> s == "" || !space(s[|s| - 1]))
  {
    if s != "" && space(s[|s| - 1]) {
      TrimRightIs(s[..|s| - 1], space);
    }
  }

  /** A blank, the only white space some readers take. */
  predicate IsBlank(c: char) {
    c == ' '
  }

  function Trim(s: string, space: char -> bool): string {
    TrimRight(TrimLeft(s, space), space)
  }

  /** s neither begins nor ends with space. */
  predicate Trimmed(s: string, space: char -> bool) {
    s == "" || (!space(s[0]) && !space(s[|s| - 1]))
  }

  lemma TrimIsTrimmed(s: string, space: char -> bool)
    ensures Trimmed(Trim(s, space), space)
    ensures Trimmed(s, space) <==> Trim(s, space) == s
    ensures |Trim(s, space)| <= |s|
  {
    var left := TrimLeft(s, space);
    var r := TrimRight(left, space);
    TrimLeftIs(s, space);
    TrimRightIs(left, space);
    if r != "" {
      assert r[0] == left[0];
    }
  }

  /** There is nothing but space. */
  predicate AllSpace(s: string, space: char -> bool) {
    forall c :: c in s ==> space(c)
  }

  lemma {:induction false} TrimLeftConcat(a: string, b: string, space: char -> bool)
    ensures TrimLeft(a + b, space) == if AllSpace(a, space) then TrimLeft(b, space) else TrimLeft(a, space) + b
    ensures TrimLeft(a, space) == "" <==> AllSpace(a, space)
  {
    if a == "" {
      assert a + b == b;
    } else {
      assert (a + b)[0] == a[0] && (a + b)[1..] == a[1..] + b;
      TrimLeftConcat(a[1..], b, space);
      assert a == [a[0]] + a[1..];
    }
  }

  lemma {:induction false} TrimRightConcat(a: string, b: string, space: char -> bool)
    ensures TrimRight(a + b, space) == if AllSpace(b, space) then TrimRight(a, space) else a + TrimRight(b, space)
    ensures TrimRight(b, space) == "" <==> AllSpace(b, space)
  {
    if b == "" {
      assert a + b == a;
    } else {
      var init, last := b[..|b| - 1], b[|b| - 1];
      assert (a + b)[|a + b| - 1] == last && (a + b)[..|a + b| - 1] == a + init;
      TrimRightConcat(a, init, space);
      assert b == init + [last];
    }
  }

  lemma TrimBlank(s: string, space: char -> bool)
    ensures Trim(s, space) == "" <==> AllSpace(s, space)
  {
    var left := TrimLeft(s, space);
    TrimLeftConcat(s, "", space);
    TrimLeftIs(s, space);
    TrimRightConcat("", left, space);
    assert "" + left == left;
    if left != "" {
      assert left[0] in left;
    }
  }

  /** Trimming two pieces put together. */
  lemma TrimConcat(a: string, b: string, space: char -> bool)
    ensures Trim(a + b, space)
         == if Trim(a, space) == "" then Trim(b, space)
            else if Trim(b, space) == "" then Trim(a, space)
            else TrimLeft(a, space) + TrimRight(b, space)
  {
    TrimBlank(a, space);
    TrimBlank(b, space);
    TrimLeftConcat(a, b, space);
    TrimRightConcat(TrimLeft(a, space), b, space);
  }

  /** Taking some of the space off first changes nothing. */
  lemma TrimAfterLess(s: string, less: char -> bool, space: char -> bool)
    requires forall c :: less(c) ==> space(c)
    ensures Trim(TrimLeft(s, less), space) == Trim(s, space)
    ensures Trim(Trim(s, space), less) == Trim(s, space)
  {
    TrimLeftIs(s, less);
    var r := TrimLeft(s, less);
    SplitTrimmed(s, less);
    var head := s[..|s| - |r|];
    assert s == head + r;
    TrimBlank(head, space);
    TrimConcat(head, r, space);
    TrimIsTrimmed(s, space);
    TrimIsTrimmed(Trim(s, space), less);
  }

  lemma {:induction false} SplitTrimmed(s: string, space: char -> bool)
    ensures |TrimLeft(s, space)| <= |s| && AllSpace(s[..|s| - |TrimLeft(s, space)|], space)
  {
    if s != "" && space(s[0]) {
      var rest := s[1..];
      SplitTrimmed(rest, space);
      var k := |rest| - |TrimLeft(rest, space)|;
      assert s[..k + 1] == [s[0]] + rest[..k];
    }
  }

  lemma {:induction false} SplitTrimmedRight(s: string, space: char -> bool)
    ensures |TrimRight(s, space)| <= |s| && AllSpace(s[|TrimRight(s, space)|..], space)
  {
    if s != "" && space(s[|s| - 1]) {
      var init, last := s[..|s| - 1], s[|s| - 1];
      SplitTrimmedRight(init, space);
      var k := |TrimRight(init, space)|;
      assert s[k..] == init[k..] + [last];
    }
  }

  lemma TrimAfterTrimLess(s: string, less: char -> bool, space: char -> bool)
    requires forall c :: less(c) ==> space(c)
    ensures Trim(Trim(s, less), space) == Trim(s, space)
  {
    var left := TrimLeft(s, less);
    var r := TrimRight(left, less);
    TrimAfterLess(s, less, space);
    SplitTrimmedRight(left, less);
    TrimRightIs(left, less);
    assert left == r + left[|r|..];
    TrimBlank(left[|r|..], space);
    TrimConcat(r, left[|r|..], space);
  }

  // ----- printing numbers and booleans -----

  function Digit(d: nat): (c: char)
    requires d < 10
    ensures '0' <= c <= '9'
    ensures (c - '0') as int == d
  {
    '0' + d as char
  }

  function NatText(n: nat): (s: string)
    ensures s != "" && forall c :: c in s ==> '0' <= c <= '9'
  {
    if n < 10 then [Digit(n)] else NatText(n / 10) + [Digit(n % 10)]
  }

  /** strconv.Itoa. */
  function Itoa(n: int): (s: string)
    ensures s != "" && forall c :: c in s ==> c == '-' || '0' <= c <= '9'
    ensures s[0] == '-' <==> n < 0
  {
    if n < 0 then "-" + NatText(-n)
    else
      assert NatText(n)[0] in NatText(n);
      NatText(n)
  }

  /** The value of a string of decimal digits. */
  function NatValue(s: string): int {
    if s == "" then 0 else 10 * NatValue(s[..|s| - 1]) + (s[|s| - 1] as int - '0' as int)
  }

  lemma {:induction false} NatTextReads(n: nat)
    ensures NatValue(NatText(n)) == n
  {
    var s := NatText(n);
    if n >= 10 {
      assert s[..|s| - 1] == NatText(n / 10);
      NatTextReads(n / 10);
    } else {
      assert s[..0] == "" && NatValue("") == 0;
    }
  }

  function IntValue(s: string): int {
    if s != "" && s[0] == '-' then -NatValue(s[1..]) else NatValue(s)
  }

  /** A printed number reads back, so no two print alike. */
  lemma ItoaReads(n: int)
    ensures IntValue(Itoa(n)) == n
  {
    if n < 0 {
      assert Itoa(n)[1..] == NatText(-n);
      NatTextReads(-n);
    } else {
      NatTextReads(n);
    }
  }

  lemma ItoaInjective(m: int, n: int)
    requires Itoa(m) == Itoa(n)
    ensures m == n
  {
    ItoaReads(m);
    ItoaReads(n);
  }

  /** strconv.FormatBool, and the String method of a boolean flag. */
  function FormatBool(b: bool): string {
    if b then "true" else "false"
  }
}
