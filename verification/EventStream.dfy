/** Event streams (WHATWG HTML, section 9.2.6) as the end-to-end harnesses read them: sse_frames,
    which yields a frame at each blank line. */
module EventStream {
  import opened Text

  // ----- lines -----

  /** Python's str.isspace. */
  predicate IsSpace(c: char) {
    || '\t' <= c <= '\r' || '\U{1C}' <= c <= ' ' || c == '\U{85}' || c == '\U{A0}' || c == '\U{1680}'
    || '\U{2000}' <= c <= '\U{200A}' || c == '\U{2028}' || c == '\U{2029}' || c == '\U{202F}'
    || c == '\U{205F}' || c == '\U{3000}'
  }

  predicate IsEol(c: char) {
    c == '\r' || c == '\n'
  }

  /** Iterating over a response: each line with its '\n', the last one perhaps without. */
  function RawLines(s: string): seq<string> {
    if s == "" then [] else Attach(s[0], RawLines(s[1..]))
  }

  /** A character put in front of the lines of what follows it. */
  function Attach(c: char, lines: seq<string>): seq<string> {
    if c == '\n' then ["\n"] + lines
    else if lines == [] then [[c]]
    else [[c] + lines[0]] + lines[1..]
  }

  /** rstrip("\r\n"). */
  function Chomp(raw: string): string {
    TrimRight(raw, IsEol)
  }

  function Strip(s: string): string {
    Trim(s, IsSpace)
  }

  function StripBlanks(s: string): string {
    TrimLeft(s, IsBlank)
  }

  /** A line of an event stream. data keeps what follows the colon, unstripped. */
  datatype Field = Blank | Comment | EventField(event: string) | DataField(data: string) | Other

  function Classify(line: string): Field {
    if line == "" then Blank
    else if line[0] == ':' then Comment
    else if "event:" <= line then EventField(Strip(line[6..]))
    else if "data:" <= line then DataField(line[5..])
    else Other
  }

  function Fields(raws: seq<string>): (r: seq<Field>)
    ensures |r| == |raws|
  {
    if raws == [] then [] else [Classify(Chomp(raws[0]))] + Fields(raws[1..])
  }

  /** The lines of a whole response. */
  function FieldsOf(stream: string): seq<Field> {
    Fields(RawLines(stream))
  }

  /** One line of a stream as it was written. */
  function Line(s: string): string {
    s + "\n"
  }

  lemma {:induction false} RawLine(a: string, b: string)
    requires '\n' !in a
    ensures RawLines(Line(a) + b) == [Line(a)] + RawLines(b)
  {
    var s := Line(a) + b;
    if a == "" {
      assert Line("") == "\n";
      assert s[0] == '\n' && s[1..] == b;
    } else {
      RawLine(a[1..], b);
      assert s[0] == a[0] && a[0] in a;
      assert s[1..] == Line(a[1..]) + b;
      assert RawLines(s[1..])[1..] == RawLines(b);
      assert [a[0]] + Line(a[1..]) == Line(a);
    }
  }

  lemma FieldsCons(raw: string, raws: seq<string>)
    ensures Fields([raw] + raws) == [Classify(Chomp(raw))] + Fields(raws)
  {
    assert ([raw] + raws)[1..] == raws;
  }

  lemma FieldLine(a: string, b: string)
    requires '\n' !in a && (a == "" || a[|a| - 1] != '\r')
    ensures FieldsOf(Line(a) + b) == [Classify(a)] + FieldsOf(b)
  {
    RawLine(a, b);
    FieldsCons(Line(a), RawLines(b));
    assert Line(a)[..|a|] == a;
    assert a != "" ==> a[|a| - 1] in a;
    TrimRightIs(a, IsEol);
  }

  // ----- sse_frames -----

  datatype Frame = Frame(event: string, data: string)

  /** The fields of the frame being read. */
  datatype Reader = Reader(event: string, data: seq<string>)

  const Idle := Reader("", [])

  function Joined(r: Reader): string {
    Join(r.data, "\n")
  }

  function Feed(r: Reader, f: Field): Reader {
    match f
    case Blank => Idle
    case EventField(e) => r.(event := e)
    case DataField(d) => r.(data := r.data + [StripBlanks(d)])
    case Comment => r
    case Other => r
  }

  predicate Pending(r: Reader) {
    r.event != "" || r.data != []
  }

  function Yielded(r: Reader, f: Field): seq<Frame> {
    if f.Blank? && Pending(r) then [Frame(r.event, Joined(r))] else []
  }

  function After(r: Reader, fs: seq<Field>): Reader
    decreases |fs|
  {
    if fs == [] then r else After(Feed(r, fs[0]), fs[1..])
  }

  function Frames(r: Reader, fs: seq<Field>): seq<Frame>
    decreases |fs|
  {
    if fs == [] then [] else Yielded(r, fs[0]) + Frames(Feed(r, fs[0]), fs[1..])
  }

  /** What sse_frames yields for a whole response. */
  function FramesOf(stream: string): seq<Frame> {
    Frames(Idle, FieldsOf(stream))
  }

  lemma {:induction false} FramesConcat(r: Reader, a: seq<Field>, b: seq<Field>)
    ensures Frames(r, a + b) == Frames(r, a) + Frames(After(r, a), b)
    ensures After(r, a + b) == After(After(r, a), b)
    decreases |a|
  {
    if a == [] {
      assert a + b == b;
    } else {
      assert (a + b)[1..] == a[1..] + b;
      FramesConcat(Feed(r, a[0]), a[1..], b);
    }
  }

  lemma FramesStep(r: Reader, f: Field, fs: seq<Field>)
    ensures Frames(r, [f] + fs) == Yielded(r, f) + Frames(Feed(r, f), fs)
    ensures After(r, [f] + fs) == After(Feed(r, f), fs)
  {
    assert ([f] + fs)[1..] == fs;
  }

  lemma FramesOne(r: Reader, f: Field)
    ensures Frames(r, [f]) == Yielded(r, f) && After(r, [f]) == Feed(r, f)
  {
    assert [f][1..] == [];
    assert Yielded(r, f) + [] == Yielded(r, f);
  }

  lemma {:induction false} FieldsAppend(raws: seq<string>, more: seq<string>)
    ensures Fields(raws + more) == Fields(raws) + Fields(more)
  {
    if raws == [] {
      assert raws + more == more;
    } else {
      assert (raws + more)[1..] == raws[1..] + more;
      FieldsAppend(raws[1..], more);
    }
  }

  lemma FieldsLast(raws: seq<string>, raw: string)
    ensures Fields(raws + [raw]) == Fields(raws) + [Classify(Chomp(raw))]
  {
    FieldsAppend(raws, [raw]);
    FieldsCons(raw, []);
    assert [raw] + [] == [raw];
  }

  lemma FramesLast(r: Reader, raws: seq<string>, raw: string)
    ensures var fs := Fields(raws); var f := Classify(Chomp(raw));
            && Frames(r, Fields(raws + [raw])) == Frames(r, fs) + Yielded(After(r, fs), f)
            && After(r, Fields(raws + [raw])) == Feed(After(r, fs), f)
  {
    FieldsLast(raws, raw);
    var f := Classify(Chomp(raw));
    FramesConcat(r, Fields(raws), [f]);
    FramesOne(After(r, Fields(raws)), f);
  }

  /** The generator loop. */
  method SseFrames(raws: seq<string>) returns (frames: seq<Frame>)
    ensures frames == Frames(Idle, Fields(raws))
  {
    var event, data := "", [];
    frames := [];
    for i := 0 to |raws|
      invariant frames == Frames(Idle, Fields(raws[..i]))
      invariant Reader(event, data) == After(Idle, Fields(raws[..i]))
    {
      assert raws[..i + 1] == raws[..i] + [raws[i]];
      FramesLast(Idle, raws[..i], raws[i]);
      var line := Chomp(raws[i]);
      if line == "" {
        if event != "" || data != [] {
          frames := frames + [Frame(event, Join(data, "\n"))];
        }
        event, data := "", [];
      } else if line[0] == ':' {
      } else if "event:" <= line {
        event := Strip(line[6..]);
      } else if "data:" <= line {
        data := data + [StripBlanks(line[5..])];
      }
    }
    assert raws[..|raws|] == raws;
  }

  // ----- printing -----

  function DataLines(lines: seq<string>): string {
    if lines == [] then "" else Line("data: " + lines[0]) + DataLines(lines[1..])
  }

  /** A frame as the servers write it: the event if it has one, a data line for every line of
      the data, and a blank line. */
  function Print(f: Frame): string {
    (if f.event == "" then "" else Line("event: " + f.event)) + DataLines(Split(f.data, '\n')) + Line("")
  }

  function PrintAll(frames: seq<Frame>): string {
    if frames == [] then "" else Print(frames[0]) + PrintAll(frames[1..])
  }

  predicate CleanEvent(e: string) {
    Trimmed(e, IsSpace) && '\n' !in e
  }

  predicate CleanLine(l: string) {
    l == "" || (l[0] != ' ' && l[|l| - 1] != '\r')
  }

  /** The frames a stream can carry unchanged. */
  predicate Clean(f: Frame) {
    CleanEvent(f.event) && forall l :: l in Split(f.data, '\n') ==> CleanLine(l)
  }

  /** A line of a name, a space and a text. */
  lemma LabelledLine(name: string, text: string)
    requires '\n' !in name && '\n' !in text && (text == "" || text[|text| - 1] != '\r')
    ensures var line := name + " " + text;
            && name <= line && line[|name|..] == " " + text
            && '\n' !in line && line[|line| - 1] != '\r'
  {
    var line := name + " " + text;
    assert line[|line| - 1] == if text == "" then ' ' else text[|text| - 1];
  }

  lemma TrimBehindBlank(e: string, space: char -> bool)
    requires space(' ') && Trimmed(e, space)
    ensures Trim(" " + e, space) == e
  {
    assert (" " + e)[1..] == e;
    assert TrimLeft(" " + e, space) == TrimLeft(e, space);
    TrimIsTrimmed(e, space);
  }

  lemma LastIsNoReturn(e: string)
    requires CleanEvent(e)
    ensures e == "" || e[|e| - 1] != '\r'
  {
  }

  lemma EventLine(e: string)
    requires CleanEvent(e) && e != ""
    ensures Classify("event: " + e) == EventField(e)
    ensures '\n' !in "event: " + e && ("event: " + e)[|e| + 6] != '\r'
  {
    var line := "event:" + " " + e;
    assert line == "event: " + e;
    LastIsNoReturn(e);
    LabelledLine("event:", e);
    TrimBehindBlank(e, IsSpace);
  }

  lemma BehindBlank(l: string)
    requires CleanLine(l)
    ensures StripBlanks(" " + l) == l
  {
    assert (" " + l)[1..] == l;
    TrimLeftIs(l, IsBlank);
  }

  lemma DataLine(l: string)
    requires CleanLine(l) && '\n' !in l
    ensures Classify("data: " + l) == DataField(" " + l)
    ensures '\n' !in "data: " + l && ("data: " + l)[|l| + 5] != '\r'
  {
    var line := "data:" + " " + l;
    assert line == "data: " + l;
    LabelledLine("data:", l);
  }

  lemma ReadDataLine(l: string, rest: string)
    requires CleanLine(l) && '\n' !in l
    ensures FieldsOf(Line("data: " + l) + rest) == [DataField(" " + l)] + FieldsOf(rest)
  {
    DataLine(l);
    FieldLine("data: " + l, rest);
  }

  function DataFields(lines: seq<string>): seq<Field> {
    if lines == [] then [] else [DataField(" " + lines[0])] + DataFields(lines[1..])
  }

  lemma {:induction false} DataLinesRead(lines: seq<string>, rest: string)
    requires forall l :: l in lines ==> CleanLine(l) && '\n' !in l
    ensures FieldsOf(DataLines(lines) + rest) == DataFields(lines) + FieldsOf(rest)
  {
    if lines == [] {
      assert DataLines(lines) + rest == rest;
    } else {
      DataLinesStep(lines, rest);
      ReadDataLine(lines[0], DataLines(lines[1..]) + rest);
      DataLinesRead(lines[1..], rest);
    }
  }

  lemma {:induction false} DataFieldsAfter(r: Reader, lines: seq<string>)
    requires forall l :: l in lines ==> CleanLine(l)
    ensures Frames(r, DataFields(lines)) == []
    ensures After(r, DataFields(lines)) == Reader(r.event, r.data + lines)
    decreases |lines|
  {
    if lines == [] {
      assert r.data + lines == r.data;
    } else {
      BehindBlank(lines[0]);
      FramesStep(r, DataField(" " + lines[0]), DataFields(lines[1..]));
      DataFieldsAfter(Reader(r.event, r.data + [lines[0]]), lines[1..]);
      assert r.data + [lines[0]] + lines[1..] == r.data + lines;
    }
  }

  lemma DataLinesStep(lines: seq<string>, rest: string)
    requires lines != []
    ensures DataLines(lines) + rest == Line("data: " + lines[0]) + (DataLines(lines[1..]) + rest)
  {
  }

  lemma ReadDataLines(r: Reader, lines: seq<string>, rest: string)
    requires forall l :: l in lines ==> CleanLine(l) && '\n' !in l
    ensures Frames(r, FieldsOf(DataLines(lines) + rest)) == Frames(Reader(r.event, r.data + lines), FieldsOf(rest))
  {
    DataLinesRead(lines, rest);
    DataFieldsAfter(r, lines);
    FramesConcat(r, DataFields(lines), FieldsOf(rest));
  }

  lemma ReadBlank(r: Reader, rest: string)
    ensures Frames(r, FieldsOf(Line("") + rest)) == Yielded(r, Blank) + Frames(Idle, FieldsOf(rest))
  {
    FieldLine("", rest);
    FramesStep(r, Blank, FieldsOf(rest));
  }

  lemma ReadFrame(f: Frame, rest: string)
    requires Clean(f)
    ensures Frames(Idle, FieldsOf(Print(f) + rest)) == [f] + Frames(Idle, FieldsOf(rest))
  {
    var lines := Split(f.data, '\n');
    var body := DataLines(lines) + (Line("") + rest);
    var r := Reader(f.event, []);
    if f.event == "" {
      assert Print(f) + rest == body;
    } else {
      assert Print(f) + rest == Line("event: " + f.event) + body;
      EventLine(f.event);
      FieldLine("event: " + f.event, body);
      FramesStep(Idle, EventField(f.event), FieldsOf(body));
    }
    ReadDataLines(r, lines, Line("") + rest);
    var full := Reader(f.event, lines);
    assert [] + lines == lines;
    ReadBlank(full, rest);
    JoinSplit(f.data, '\n');
  }

  lemma {:induction false} ReadFrames(frames: seq<Frame>)
    requires forall f :: f in frames ==> Clean(f)
    ensures FramesOf(PrintAll(frames)) == frames
  {
    if frames != [] {
      ReadFrames(frames[1..]);
      ReadFrame(frames[0], PrintAll(frames[1..]));
    }
  }

  // ----- which frames survive -----

  predicate CleanField(f: Field) {
    && (f.EventField? ==> CleanEvent(f.event))
    && (f.DataField? ==> CleanLine(StripBlanks(f.data)) && '\n' !in StripBlanks(f.data))
  }

  predicate CleanReader(r: Reader) {
    CleanEvent(r.event) && forall l :: l in r.data ==> CleanLine(l) && '\n' !in l
  }

  /** A raw line holds '\n' at most at its end. */
  predicate IsRawLine(raw: string) {
    raw != "" && '\n' !in raw[..|raw| - 1]
  }

  lemma {:induction false} RawLinesAreRaw(s: string)
    ensures forall l :: l in RawLines(s) ==> IsRawLine(l)
  {
    if s != "" {
      RawLinesAreRaw(s[1..]);
      var r := RawLines(s[1..]);
      if s[0] != '\n' {
        if r == [] {
          assert s[1..] == "" && s[..|s| - 1] == "";
        } else {
          assert IsRawLine(r[0]);
          assert ([s[0]] + r[0])[..|r[0]|] == [s[0]] + r[0][..|r[0]| - 1];
        }
      }
    }
  }

  lemma ChompedIsOneLine(raw: string)
    requires IsRawLine(raw)
    ensures '\n' !in Chomp(raw)
  {
    var line := Chomp(raw);
    TrimRightIs(raw, IsEol);
    if line != "" {
      assert line[|line| - 1] != '\n';
      if |line| == |raw| {
        assert line == raw[..|raw| - 1] + [raw[|raw| - 1]];
      } else {
        assert line == raw[..|raw| - 1][..|line|];
      }
    }
  }

  lemma ClassifiedIsClean(line: string)
    requires '\n' !in line && (line == "" || line[|line| - 1] != '\r')
    ensures CleanField(Classify(line))
  {
    if Classify(line).DataField? {
      SuffixIsClean(line, 5);
    } else if Classify(line).EventField? {
      SuffixIsClean(line, 6);
    }
  }

  lemma ChompedIsClean(raw: string)
    requires IsRawLine(raw)
    ensures CleanField(Classify(Chomp(raw)))
  {
    ChompedIsOneLine(raw);
    TrimRightIs(raw, IsEol);
    ClassifiedIsClean(Chomp(raw));
  }

  lemma SuffixIsClean(line: string, k: nat)
    requires k <= |line| && '\n' !in line && (line == "" || line[|line| - 1] != '\r')
    ensures CleanField(DataField(line[k..])) && CleanField(EventField(Strip(line[k..])))
  {
    DataIsClean(line, line[k..]);
    EventIsClean(line[k..]);
  }

  lemma DataIsClean(line: string, t: string)
    requires |t| <= |line| && t == line[|line| - |t|..] && '\n' !in line && (line == "" || line[|line| - 1] != '\r')
    ensures CleanField(DataField(t))
  {
    var d := StripBlanks(t);
    TrimLeftIs(t, IsBlank);
    if d != "" {
      assert d[|d| - 1] == line[|line| - 1];
    }
  }

  lemma EventIsClean(t: string)
    requires '\n' !in t
    ensures CleanField(EventField(Strip(t)))
  {
    TrimIsTrimmed(t, IsSpace);
    TrimKeepsOut(t, IsSpace, '\n');
  }

  lemma TrimKeepsOut(t: string, space: char -> bool, c: char)
    requires c !in t
    ensures c !in Trim(t, space)
  {
    TrimLeftIs(t, space);
    TrimRightIs(TrimLeft(t, space), space);
  }

  lemma {:induction false} FieldsAreClean(raws: seq<string>)
    requires forall l :: l in raws ==> IsRawLine(l)
    ensures forall f :: f in Fields(raws) ==> CleanField(f)
  {
    if raws != [] {
      ChompedIsClean(raws[0]);
      FieldsAreClean(raws[1..]);
    }
  }

  lemma FeedKeepsClean(r: Reader, f: Field)
    requires CleanReader(r) && CleanField(f)
    ensures CleanReader(Feed(r, f))
    ensures forall y :: y in Yielded(r, f) ==> Clean(y)
  {
    if f.Blank? && r.data != [] {
      SplitJoin(r.data, '\n');
    }
  }

  lemma {:induction false} FramesAreClean(r: Reader, fs: seq<Field>)
    requires CleanReader(r)
    requires forall f :: f in fs ==> CleanField(f)
    ensures forall f :: f in Frames(r, fs) ==> Clean(f)
    decreases |fs|
  {
    if fs != [] {
      FeedKeepsClean(r, fs[0]);
      FramesAreClean(Feed(r, fs[0]), fs[1..]);
    }
  }

  lemma ReadFramesAreClean(stream: string)
    ensures forall f :: f in FramesOf(stream) ==> Clean(f)
  {
    RawLinesAreRaw(stream);
    FieldsAreClean(RawLines(stream));
    FramesAreClean(Idle, FieldsOf(stream));
  }

  /** Reading undoes printing exactly for the clean frames: no white space around the event, and
      no data line that begins with a space or ends with a carriage return. */
  lemma PrintThenRead(frames: seq<Frame>)
    ensures FramesOf(PrintAll(frames)) == frames <==> forall f :: f in frames ==> Clean(f)
  {
    var s := PrintAll(frames);
    if forall f :: f in frames ==> Clean(f) {
      ReadFrames(frames);
    }
    ReadFramesAreClean(s);
  }

  /** So what was read once can be printed and read again. */
  lemma ReadPrintRead(stream: string)
    ensures FramesOf(PrintAll(FramesOf(stream))) == FramesOf(stream)
  {
    ReadFramesAreClean(stream);
    PrintThenRead(FramesOf(stream));
  }

  // ----- comments between frames -----

  /** The keepalive a server writes between frames. */
  const PING := Line(": ping") + Line("")

  datatype Written = Event(frame: Frame) | Ping

  function PrintWritten(ws: seq<Written>): string {
    if ws == [] then ""
    else (match ws[0] case Event(f) => Print(f) case Ping => PING) + PrintWritten(ws[1..])
  }

  function EventsOf(ws: seq<Written>): seq<Frame> {
    if ws == [] then []
    else (match ws[0] case Event(f) => [f] case Ping => []) + EventsOf(ws[1..])
  }

  lemma ReadPing(rest: string)
    ensures Frames(Idle, FieldsOf(PING + rest)) == Frames(Idle, FieldsOf(rest))
  {
    assert PING + rest == Line(": ping") + (Line("") + rest);
    FieldLine(": ping", Line("") + rest);
    FramesStep(Idle, Comment, FieldsOf(Line("") + rest));
    ReadBlank(Idle, rest);
  }

  /** Keepalive comments between frames change nothing. */
  lemma {:induction false} PingsAreInvisible(ws: seq<Written>)
    requires forall f :: f in EventsOf(ws) ==> Clean(f)
    ensures FramesOf(PrintWritten(ws)) == EventsOf(ws)
  {
    if ws != [] {
      PingsAreInvisible(ws[1..]);
      match ws[0]
      case Event(f) =>
        assert EventsOf(ws)[0] == f;
        ReadFrame(f, PrintWritten(ws[1..]));
      case Ping =>
        ReadPing(PrintWritten(ws[1..]));
    }
  }

  /** Comments and lines of other fields change nothing, wherever they stand. */
  lemma CommentsAndOthersAreInvisible(r: Reader, a: seq<Field>, f: Field, b: seq<Field>)
    requires f.Comment? || f.Other?
    ensures Frames(r, a + [f] + b) == Frames(r, a + b) && After(r, a + [f] + b) == After(r, a + b)
  {
    assert a + [f] + b == a + ([f] + b);
    FramesConcat(r, a, [f] + b);
    FramesConcat(r, a, b);
    FramesStep(After(r, a), f, b);
  }

  /** Of two event lines the last counts, whatever other lines stand between. */
  lemma LastEventCounts(r: Reader, event: string, data: seq<string>, event': string, fs: seq<Field>)
    ensures Frames(r, [EventField(event)] + (DataFields(data) + ([EventField(event')] + fs)))
         == Frames(r, DataFields(data) + ([EventField(event')] + fs))
  {
    var rest := [EventField(event')] + fs;
    FramesStep(r, EventField(event), DataFields(data) + rest);
    FramesConcat(r, DataFields(data), rest);
    FramesConcat(r.(event := event), DataFields(data), rest);
    DataKeepsEvent(r, data);
    DataKeepsEvent(r.(event := event), data);
    FramesStep(After(r, DataFields(data)), EventField(event'), fs);
    FramesStep(After(r.(event := event), DataFields(data)), EventField(event'), fs);
    SameData(r, r.(event := event), data);
  }

  lemma {:induction false} DataKeepsEvent(r: Reader, data: seq<string>)
    ensures Frames(r, DataFields(data)) == [] && After(r, DataFields(data)).event == r.event
    decreases |data|
  {
    if data != [] {
      FramesStep(r, DataField(" " + data[0]), DataFields(data[1..]));
      DataKeepsEvent(Feed(r, DataField(" " + data[0])), data[1..]);
    }
  }

  lemma {:induction false} SameData(r: Reader, r': Reader, data: seq<string>)
    requires r.data == r'.data
    ensures After(r, DataFields(data)).data == After(r', DataFields(data)).data
    decreases |data|
  {
    if data != [] {
      var f := DataField(" " + data[0]);
      FramesStep(r, f, DataFields(data[1..]));
      FramesStep(r', f, DataFields(data[1..]));
      SameData(Feed(r, f), Feed(r', f), data[1..]);
    }
  }

  /** A bare event line is an event line, and takes back the event before it. */
  lemma BareEventTakesItBack(e: string)
    requires CleanEvent(e) && e != ""
    ensures FramesOf(Line("event: " + e) + (Line("event:") + (Line("") + ""))) == []
  {
    EventLine(e);
    BareEvent();
    FieldLine("event: " + e, Line("event:") + (Line("") + ""));
    FieldLine("event:", Line("") + "");
    FieldLine("", "");
    assert FieldsOf("") == [] && [Blank] + [] == [Blank];
    FramesStep(Idle, EventField(e), [EventField("")] + [Blank]);
    FramesStep(Reader(e, []), EventField(""), [Blank]);
    FramesOne(Idle, Blank);
  }

  lemma BareEvent()
    ensures Classify("event:") == EventField("") && '\n' !in "event:" && "event:"[5] != '\r'
  {
    assert "event:"[0] == 'e' && "event:"[6..] == "";
  }

  /** An event line makes a frame without any data; a blank line alone makes none. */
  lemma EventAloneIsAFrame(e: string)
    requires CleanEvent(e) && e != ""
    ensures FramesOf(Line("event: " + e) + (Line("") + "")) == [Frame(e, "")]
    ensures FramesOf(Line("") + "") == []
  {
    EventLine(e);
    FieldLine("event: " + e, Line("") + "");
    FieldLine("", "");
    assert FieldsOf("") == [] && [Blank] + [] == [Blank];
    FramesStep(Idle, EventField(e), [Blank]);
    FramesOne(Reader(e, []), Blank);
    FramesOne(Idle, Blank);
  }

  // ----- a response that breaks off -----

  /** What follows the last '\n'. */
  function Tail(s: string): (t: string)
    ensures |t| <= |s|
  {
    if '\n' !in s then s else Tail(s[1..])
  }

  lemma {:induction false} TailIs(s: string)
    ensures Tail(s) == s[|s| - |Tail(s)|..] && '\n' !in Tail(s)
  {
    if '\n' in s {
      TailIs(s[1..]);
    }
  }

  /** The complete lines. */
  function Head(s: string): string {
    s[..|s| - |Tail(s)|]
  }

  lemma {:induction false} HeadEndsALine(s: string)
    ensures Head(s) == "" || Head(s)[|Head(s)| - 1] == '\n'
  {
    TailIs(s);
    if '\n' in s {
      HeadEndsALine(s[1..]);
      TailIs(s[1..]);
      if Head(s[1..]) == "" {
        assert s[1..] == Tail(s[1..]) && s == [s[0]] + s[1..];
      } else {
        assert Head(s) == [s[0]] + Head(s[1..]);
      }
    }
  }

  lemma AttachConcat(c: char, x: seq<string>, y: seq<string>)
    requires c == '\n' || x != []
    ensures Attach(c, x + y) == Attach(c, x) + y
  {
    if x != [] {
      assert (x + y)[0] == x[0] && (x + y)[1..] == x[1..] + y;
    }
  }

  lemma {:induction false} RawLinesConcat(head: string, s: string)
    requires head == "" || head[|head| - 1] == '\n'
    ensures RawLines(head + s) == RawLines(head) + RawLines(s)
  {
    if head == "" {
      assert head + s == s;
    } else {
      assert (head + s)[0] == head[0] && (head + s)[1..] == head[1..] + s;
      RawLinesConcat(head[1..], s);
      AttachConcat(head[0], RawLines(head[1..]), RawLines(s));
    }
  }

  lemma {:induction false} RawTail(t: string)
    requires '\n' !in t
    ensures RawLines(t) == if t == "" then [] else [t]
  {
    if t != "" {
      RawTail(t[1..]);
      assert t == [t[0]] + t[1..] && t[0] in t;
      assert t[1..] == "" ==> t == [t[0]];
    }
  }

  lemma FramesBehind(head: string, s: string)
    requires head == "" || head[|head| - 1] == '\n'
    ensures FramesOf(head + s) == FramesOf(head) + Frames(After(Idle, FieldsOf(head)), FieldsOf(s))
  {
    RawLinesConcat(head, s);
    FieldsAppend(RawLines(head), RawLines(s));
    FramesConcat(Idle, FieldsOf(head), FieldsOf(s));
  }

  lemma FramesAfterHead(p: string, q: string)
    ensures FramesOf(p + q)
         == FramesOf(Head(p)) + Frames(After(Idle, FieldsOf(Head(p))), FieldsOf(Tail(p) + q))
  {
    HeadEndsALine(p);
    TailIs(p);
    assert p + q == Head(p) + (Tail(p) + q);
    FramesBehind(Head(p), Tail(p) + q);
  }

  lemma TailField(t: string)
    requires '\n' !in t
    ensures FieldsOf(t) == if t == "" then [] else [Classify(Chomp(t))]
  {
    RawTail(t);
    if t != "" {
      FieldsCons(t, []);
      assert [t] + [] == [t];
    }
  }

  lemma FramesAtEnd(p: string)
    ensures FramesOf(p)
         == FramesOf(Head(p))
            + if Tail(p) == "" then [] else Yielded(After(Idle, FieldsOf(Head(p))), Classify(Chomp(Tail(p))))
  {
    FramesAfterHead(p, "");
    TailIs(p);
    assert p + "" == p && Tail(p) + "" == Tail(p);
    TailField(Tail(p));
    if Tail(p) != "" {
      FramesOne(After(Idle, FieldsOf(Head(p))), Classify(Chomp(Tail(p))));
    }
  }

  /** The response breaks off inside a line of carriage returns while a frame is being read: the
      reader takes it for the blank line that ends the frame. */
  predicate BreaksOff(p: string) {
    Tail(p) != "" && Chomp(Tail(p)) == "" && Pending(After(Idle, FieldsOf(Head(p))))
  }

  const MORE := Line("x") + Line("data: y") + Line("")

  lemma JunkLine(t: string)
    requires t != "" && '\n' !in t && Chomp(t) == ""
    ensures Classify(t + "x") == Other && '\n' !in t + "x"
  {
    ChompToNothing(t);
    assert t[0] in t && IsEol(t[0]);
    assert (t + "x")[0] == t[0] == '\r';
  }

  lemma DataThenBlank(l: string)
    requires CleanLine(l) && '\n' !in l
    ensures FieldsOf(Line("data: " + l) + (Line("") + "")) == [DataField(" " + l)] + [Blank]
  {
    ReadDataLine(l, Line("") + "");
    FieldLine("", "");
    assert FieldsOf("") == [] && [Blank] + [] == [Blank];
  }

  lemma MoreFields(t: string)
    requires t != "" && '\n' !in t && Chomp(t) == ""
    ensures FieldsOf(t + MORE) == [Other] + ([DataField(" " + "y")] + [Blank])
  {
    var rest := Line("data: " + "y") + (Line("") + "");
    assert MORE == Line("x") + rest;
    assert t + MORE == Line(t + "x") + rest;
    JunkLine(t);
    FieldLine(t + "x", rest);
    DataThenBlank("y");
  }

  lemma FramesOfData(r: Reader, l: string)
    requires CleanLine(l)
    ensures Frames(r, [Other] + ([DataField(" " + l)] + [Blank])) == [Frame(r.event, Join(r.data + [l], "\n"))]
  {
    BehindBlank(l);
    FramesStep(r, Other, [DataField(" " + l)] + [Blank]);
    FramesStep(r, DataField(" " + l), [Blank]);
    FramesOne(Reader(r.event, r.data + [l]), Blank);
  }

  lemma ReadMore(r: Reader, t: string)
    requires t != "" && '\n' !in t && Chomp(t) == ""
    ensures Frames(r, FieldsOf(t + MORE)) == [Frame(r.event, Join(r.data + ["y"], "\n"))]
  {
    MoreFields(t);
    FramesOfData(r, "y");
  }

  lemma {:induction false} ChompToNothing(t: string)
    requires Chomp(t) == ""
    ensures forall c :: c in t ==> IsEol(c)
  {
    if t != "" {
      ChompToNothing(t[..|t| - 1]);
      assert t == t[..|t| - 1] + [t[|t| - 1]];
    }
  }

  lemma WholePart(p: string, q: string)
    requires !BreaksOff(p)
    ensures FramesOf(p) <= FramesOf(p + q)
  {
    FramesAtEnd(p);
    FramesAfterHead(p, q);
    if Tail(p) != "" {
      assert Yielded(After(Idle, FieldsOf(Head(p))), Classify(Chomp(Tail(p)))) == [];
    }
  }

  lemma OneMoreLine(data: seq<string>)
    ensures Join(data + ["y"], "\n") != Join(data, "\n")
  {
    if data == [] {
      assert [] + ["y"] == ["y"];
    } else {
      JoinAppend(data, "y", "\n");
    }
  }

  lemma BrokenPart(p: string)
    requires BreaksOff(p)
    ensures !(FramesOf(p) <= FramesOf(p + MORE))
  {
    FramesAtEnd(p);
    FramesAfterHead(p, MORE);
    TailIs(p);
    var r := After(Idle, FieldsOf(Head(p)));
    ReadMore(r, Tail(p));
    OneMoreLine(r.data);
    var base := FramesOf(Head(p));
    assert FramesOf(p)[|base|] != FramesOf(p + MORE)[|base|];
  }

  /** The frames of a part of a response are the first frames of the whole, however it goes on,
      exactly if the part does not break off in a line of carriage returns inside a frame. */
  lemma PartsGiveFirstFrames(p: string)
    ensures (forall q :: FramesOf(p) <= FramesOf(p + q)) <==> !BreaksOff(p)
  {
    if BreaksOff(p) {
      BrokenPart(p);
    } else {
      forall q
        ensures FramesOf(p) <= FramesOf(p + q)
      {
        WholePart(p, q);
      }
    }
  }

  /** Such a part: the frame it ends with is not among the frames of the whole. */
  lemma PartThatBreaksOff()
    ensures var part := Line("data: " + "x") + "\r";
            && BreaksOff(part)
            && FramesOf(part) == [Frame("", "x")]
            && FramesOf(part + MORE) == [Frame("", "x" + "\n" + "y")]
  {
    BreaksOffBehind("x");
    JoinAppend(["x"], "y", "\n");
  }

  lemma OneLineOfData(l: string)
    requires CleanLine(l) && '\n' !in l
    ensures var head := Line("data: " + l);
            FramesOf(head) == [] && After(Idle, FieldsOf(head)) == Reader("", [l])
  {
    var head := Line("data: " + l);
    ReadDataLine(l, "");
    assert head + "" == head && FieldsOf("") == [];
    BehindBlank(l);
    FramesOne(Idle, DataField(" " + l));
    assert [DataField(" " + l)] + [] == [DataField(" " + l)];
    assert [] + [l] == [l];
  }

  lemma BreaksOffBehind(l: string)
    requires CleanLine(l) && '\n' !in l
    ensures var part := Line("data: " + l) + "\r";
            && BreaksOff(part)
            && FramesOf(part) == [Frame("", l)]
            && FramesOf(part + MORE) == [Frame("", Join([l] + ["y"], "\n"))]
  {
    var head, part := Line("data: " + l), Line("data: " + l) + "\r";
    TailOf(head, "\r");
    OneLineOfData(l);
    assert Chomp("\r") == "";
    FramesAtEnd(part);
    FramesAfterHead(part, MORE);
    ReadMore(Reader("", [l]), "\r");
  }

  lemma {:induction false} TailOf(head: string, t: string)
    requires head != "" && head[|head| - 1] == '\n' && '\n' !in t
    ensures Tail(head + t) == t && Head(head + t) == head
  {
    assert (head + t)[|head| - 1] == '\n';
    if |head| > 1 {
      TailOf(head[1..], t);
      assert (head + t)[1..] == head[1..] + t;
    } else {
      assert (head + t)[1..] == t;
    }
  }
}
