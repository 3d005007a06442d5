/** stream_turn: a second reader of the same event streams, which acts on every data line as it
    comes instead of waiting for the end of the frame, and its agreement with sse_frames. */
module TurnReader {
  import opened Options
  import opened Text
  import opened EventStream

  /** What a decoded chunk is asked: whether it is a JSON object, whether it reports an error, and
      the contents of its choices. body stands for the value itself. */
  datatype Chunk = Chunk(isObject: bool, error: bool, contents: seq<string>, body: string)

  /** What a turn has collected; failed once an error ended it. */
  datatype Turn = Turn(usage: seq<Chunk>, answer: seq<string>, failed: bool)

  const Start := Turn([], [], false)

  /** The end marker and whatever does not decode carry nothing. */
  function Decoded(json: string -> Option<Chunk>, data: string): Option<Chunk> {
    if data == "[DONE]" then None else json(data)
  }

  /** One piece of data under an event. */
  function Collect(json: string -> Option<Chunk>, t: Turn, event: string, data: string): Turn {
    match Decoded(json, data)
    case None => t
    case Some(c) =>
      if t.failed then t
      else if event == "usage_update" then t.(usage := t.usage + [c])
      else if event == "" && c.isObject then
        if c.error then t.(failed := true) else t.(answer := t.answer + c.contents)
      else t
  }

  /** What is done with a piece of data under an event. */
  type Collector = (Turn, string, string) -> Turn

  function With(json: string -> Option<Chunk>): Collector {
    (t: Turn, event: string, data: string) => Collect(json, t, event, data)
  }

  // ----- the line-driven reader -----

  datatype LineState = LineState(event: string, turn: Turn)

  function TakeLine(c: Collector, s: LineState, f: Field): LineState {
    match f
    case Blank => s.(event := "")
    case EventField(e) => s.(event := e)
    case DataField(d) => s.(turn := c(s.turn, s.event, Strip(d)))
    case Comment => s
    case Other => s
  }

  function TakeLines(c: Collector, s: LineState, fs: seq<Field>): LineState
    decreases |fs|
  {
    if fs == [] then s else TakeLines(c, TakeLine(c, s, fs[0]), fs[1..])
  }

  lemma {:induction false} TakeLinesAppend(c: Collector, s: LineState, fs: seq<Field>, f: Field)
    ensures TakeLines(c, s, fs + [f]) == TakeLine(c, TakeLines(c, s, fs), f)
    decreases |fs|
  {
    if fs == [] {
      assert [f][1..] == [];
    } else {
      assert (fs + [f])[1..] == fs[1..] + [f];
      TakeLinesAppend(c, TakeLine(c, s, fs[0]), fs[1..], f);
    }
  }

  /** A turn that has failed collects nothing more. */
  ghost predicate KeepsFailed(c: Collector) {
    forall t: Turn, event, data :: t.failed ==> c(t, event, data) == t
  }

  lemma {:induction false} FailedStays(c: Collector, s: LineState, fs: seq<Field>)
    requires s.turn.failed && KeepsFailed(c)
    ensures TakeLines(c, s, fs).turn == s.turn
    decreases |fs|
  {
    if fs != [] {
      FailedStays(c, TakeLine(c, s, fs[0]), fs[1..]);
    }
  }

  lemma TakeLinesLast(c: Collector, s: LineState, raws: seq<string>, raw: string)
    ensures TakeLines(c, s, Fields(raws + [raw])) == TakeLine(c, TakeLines(c, s, Fields(raws)), Classify(Chomp(raw)))
  {
    FieldsLast(raws, raw);
    TakeLinesAppend(c, s, Fields(raws), Classify(Chomp(raw)));
  }

  lemma {:induction false} TakeLinesConcat(c: Collector, s: LineState, a: seq<Field>, b: seq<Field>)
    ensures TakeLines(c, s, a + b) == TakeLines(c, TakeLines(c, s, a), b)
    decreases |a|
  {
    if a == [] {
      assert a + b == b;
    } else {
      assert (a + b)[1..] == a[1..] + b;
      TakeLinesConcat(c, TakeLine(c, s, a[0]), a[1..], b);
    }
  }

  /** A turn that has failed is not changed by the lines it no longer reads. */
  lemma Leave(c: Collector, s: LineState, a: seq<string>, b: seq<string>)
    requires TakeLines(c, s, Fields(a)).turn.failed && KeepsFailed(c)
    ensures TakeLines(c, s, Fields(a + b)).turn == TakeLines(c, s, Fields(a)).turn
  {
    FieldsAppend(a, b);
    TakeLinesConcat(c, s, Fields(a), Fields(b));
    FailedStays(c, TakeLines(c, s, Fields(a)), Fields(b));
  }

  /** The body of the data branch: decode, and append to the usage frames or to the answer. */
  method CollectInto(json: string -> Option<Chunk>, t: Turn, event: string, data: string) returns (t': Turn)
    requires !t.failed
    ensures t' == Collect(json, t, event, data)
  {
    t' := t;
    if data == "[DONE]" {
      return;
    }
    var chunk := json(data);
    if chunk.None? {
      return;
    }
    if event == "usage_update" {
      t' := t.(usage := t.usage + [chunk.value]);
    } else if event == "" && chunk.value.isObject {
      if chunk.value.error {
        return t.(failed := true);
      }
      t' := t.(answer := t.answer + chunk.value.contents);
    }
  }

  /** The body of the loop. */
  method ReadTurnLine(json: string -> Option<Chunk>, event: string, turn: Turn, raw: string)
    returns (event': string, turn': Turn)
    requires !turn.failed
    ensures LineState(event', turn') == TakeLine(With(json), LineState(event, turn), Classify(Chomp(raw)))
  {
    event', turn' := event, turn;
    var line := Chomp(raw);
    if line == "" {
      event' := "";
    } else if "event:" <= line {
      event' := Strip(line[6..]);
    } else if "data:" <= line {
      turn' := CollectInto(json, turn, event, Strip(line[5..]));
    }
  }

  /** The loop of stream_turn, which leaves on a reported error. */
  method StreamTurn(json: string -> Option<Chunk>, raws: seq<string>) returns (turn: Turn)
    ensures turn == TakeLines(With(json), LineState("", Start), Fields(raws)).turn
  {
    ghost var start := LineState("", Start);
    var event := "";
    turn := Start;
    for i := 0 to |raws|
      invariant LineState(event, turn) == TakeLines(With(json), start, Fields(raws[..i])) && !turn.failed
    {
      TakeLinesLast(With(json), start, raws[..i], raws[i]);
      event, turn := ReadTurnLine(json, event, turn, raws[i]);
      assert raws[..i] + [raws[i]] == raws[..i + 1];
      if turn.failed {
        Leave(With(json), start, raws[..i + 1], raws[i + 1..]);
        assert raws[..i + 1] + raws[i + 1..] == raws;
        return;
      }
    }
    assert raws[..|raws|] == raws;
  }

  // ----- a fold over the frames -----

  function CollectAll(c: Collector, t: Turn, frames: seq<Frame>): Turn
    decreases |frames|
  {
    if frames == [] then t else CollectAll(c, c(t, frames[0].event, frames[0].data), frames[1..])
  }

  /** The turn once the data read so far counts as well. */
  function Settled(c: Collector, t: Turn, r: Reader): Turn {
    if r.data == [] then t else c(t, r.event, Joined(r))
  }

  /** The fold over the frames of what is still to come, and the data of an unfinished last one. */
  function Fold(c: Collector, t: Turn, r: Reader, fs: seq<Field>): Turn {
    Settled(c, CollectAll(c, t, Frames(r, fs)), After(r, fs))
  }

  lemma {:induction false} CollectConcat(c: Collector, t: Turn, a: seq<Frame>, b: seq<Frame>)
    ensures CollectAll(c, t, a + b) == CollectAll(c, CollectAll(c, t, a), b)
    decreases |a|
  {
    if a == [] {
      assert a + b == b;
    } else {
      assert (a + b)[1..] == a[1..] + b;
      CollectConcat(c, c(t, a[0].event, a[0].data), a[1..], b);
    }
  }

  lemma FoldStep(c: Collector, t: Turn, r: Reader, f: Field, fs: seq<Field>)
    ensures Fold(c, t, r, [f] + fs) == Fold(c, CollectAll(c, t, Yielded(r, f)), Feed(r, f), fs)
  {
    FramesStep(r, f, fs);
    CollectConcat(c, t, Yielded(r, f), Frames(Feed(r, f), fs));
  }

  lemma CollectYielded(c: Collector, t: Turn, r: Reader, f: Field)
    ensures CollectAll(c, t, Yielded(r, f)) == if f.Blank? && Pending(r) then c(t, r.event, Joined(r)) else t
  {
    if f.Blank? && Pending(r) {
      CollectOne(c, t, Frame(r.event, Joined(r)));
    }
  }

  lemma CollectOne(c: Collector, t: Turn, f: Frame)
    ensures CollectAll(c, t, [f]) == c(t, f.event, f.data)
  {
    assert [f][1..] == [];
  }

  // ----- decoders -----

  /** The white space of JSON. */
  predicate JsonSpace(c: char) {
    c == ' ' || c == '\t' || c == '\r' || c == '\n'
  }

  function Bare(data: string): string {
    Trim(data, JsonSpace)
  }

  /** What is asked of json.loads: white space around a value does not matter, and neither nothing
      nor the end marker is a value. */
  ghost predicate Admissible(json: string -> Option<Chunk>) {
    && (forall x :: json(x) == json(Bare(x)))
    && json("") == None && json("[DONE]") == None
  }

  /** Nothing but white space. */
  predicate Quiet(data: string) {
    Bare(data) == ""
  }

  /** A frame under this event is looked into. */
  predicate Heard(event: string) {
    event == "" || event == "usage_update"
  }

  /** The two readers strip the line alike, as far as JSON is concerned: str.strip takes more than
      the white space of JSON. */
  predicate StripsAlike(f: Field) {
    f.DataField? ==> Strip(f.data) == Bare(f.data)
  }

  lemma DecodesBare(json: string -> Option<Chunk>, data: string)
    requires Admissible(json)
    ensures Decoded(json, data) == json(Bare(data))
  {
    TrimIsTrimmed("[DONE]", JsonSpace);
  }

  lemma CollectsBare(json: string -> Option<Chunk>, t: Turn, event: string, data: string, data': string)
    requires Admissible(json) && Bare(data) == Bare(data')
    ensures With(json)(t, event, data) == With(json)(t, event, data')
    ensures Quiet(data) ==> With(json)(t, event, data) == t
    ensures !Heard(event) ==> With(json)(t, event, data) == t
  {
    DecodesBare(json, data);
    DecodesBare(json, data');
  }

  lemma BareOfBlanks(data: string)
    ensures Bare(StripBlanks(data)) == Bare(data)
    ensures Bare(Bare(data)) == Bare(data)
  {
    TrimAfterLess(data, IsBlank, JsonSpace);
    TrimIsTrimmed(data, JsonSpace);
    TrimIsTrimmed(Bare(data), JsonSpace);
  }

  lemma StripIsBare(data: string)
    ensures Bare(Strip(data)) == Strip(data)
  {
    TrimAfterLess(data, JsonSpace, IsSpace);
  }

  // ----- where the two readers agree -----

  /** Once a frame has data that is not quiet, no event line follows in it. */
  predicate EventsFirst(r: Reader, fs: seq<Field>)
    decreases |fs|
  {
    fs == [] || ((fs[0].EventField? ==> Quiet(Joined(r))) && EventsFirst(Feed(r, fs[0]), fs[1..]))
  }

  /** In a frame that is looked into, at most one data line is not quiet. */
  predicate Harmless(r: Reader, fs: seq<Field>)
    decreases |fs|
  {
    fs == [] || (DataOk(r, fs[0]) && Harmless(Feed(r, fs[0]), fs[1..]))
  }

  predicate DataOk(r: Reader, f: Field) {
    f.DataField? ==> !Heard(r.event) || Quiet(Joined(r)) || Quiet(f.data)
  }

  /** The data read so far, with one line more. */
  lemma JoinedGrows(r: Reader, d: string)
    ensures var r' := Feed(r, DataField(d));
            Bare(Joined(r')) == if Quiet(Joined(r)) then Bare(d)
                                else if Quiet(d) then Bare(Joined(r))
                                else TrimLeft(Joined(r), JsonSpace) + TrimRight("\n" + StripBlanks(d), JsonSpace)
  {
    var line := StripBlanks(d);
    BareOfBlanks(d);
    if r.data == [] {
      assert r.data + [line] == [line];
      assert Bare("") == "";
    } else {
      JoinAppend(r.data, line, "\n");
      assert Joined(r) + "\n" + line == Joined(r) + ("\n" + line);
      TrimConcat(Joined(r), "\n" + line, JsonSpace);
      TrimBlank("\n", JsonSpace);
      TrimConcat("\n", line, JsonSpace);
    }
  }

  lemma LineAgrees(json: string -> Option<Chunk>, t: Turn, r: Reader, f: Field)
    requires Admissible(json) && StripsAlike(f) && DataOk(r, f) && (f.EventField? ==> Quiet(Joined(r)))
    ensures var c := With(json);
            TakeLine(c, LineState(r.event, Settled(c, t, r)), f)
            == LineState(Feed(r, f).event, Settled(c, CollectAll(c, t, Yielded(r, f)), Feed(r, f)))
  {
    CollectYielded(With(json), t, r, f);
    match f
    case Blank =>
      CollectsBare(json, t, r.event, Joined(r), Joined(r));
      assert r.data == [] ==> Joined(r) == "" && Quiet("");
    case DataField(d) => DataAgrees(json, t, r, d);
    case EventField(e) =>
      CollectsBare(json, t, r.event, Joined(r), Joined(r));
      CollectsBare(json, t, e, Joined(r), Joined(r));
    case Comment =>
    case Other =>
  }

  lemma DataAgrees(json: string -> Option<Chunk>, t: Turn, r: Reader, d: string)
    requires Admissible(json) && Strip(d) == Bare(d) && DataOk(r, DataField(d))
    ensures var c := With(json);
            c(Settled(c, t, r), r.event, Strip(d)) == Settled(c, t, Feed(r, DataField(d)))
  {
    var c, r' := With(json), Feed(r, DataField(d));
    JoinedGrows(r, d);
    BareOfBlanks(d);
    var before := Settled(c, t, r);
    CollectsBare(json, t, r.event, Joined(r), Joined(r));
    assert r.data == [] ==> Joined(r) == "" && Quiet("");
    if !Heard(r.event) {
      CollectsBare(json, before, r.event, Strip(d), d);
      CollectsBare(json, t, r.event, Joined(r'), Joined(r'));
    } else if Quiet(Joined(r)) {
      CollectsBare(json, t, r.event, Strip(d), Joined(r'));
    } else {
      CollectsBare(json, before, r.event, Strip(d), d);
      CollectsBare(json, t, r.event, Joined(r), Joined(r'));
    }
  }

  lemma {:induction false} LinesAgree(json: string -> Option<Chunk>, t: Turn, r: Reader, fs: seq<Field>)
    requires Admissible(json) && EventsFirst(r, fs) && Harmless(r, fs)
    requires forall f :: f in fs ==> StripsAlike(f)
    ensures var c := With(json);
            TakeLines(c, LineState(r.event, Settled(c, t, r)), fs) == LineState(After(r, fs).event, Fold(c, t, r, fs))
    decreases |fs|
  {
    if fs != [] {
      var c := With(json);
      LineAgrees(json, t, r, fs[0]);
      LinesAgree(json, CollectAll(c, t, Yielded(r, fs[0])), Feed(r, fs[0]), fs[1..]);
      FoldStep(c, t, r, fs[0], fs[1..]);
      assert [fs[0]] + fs[1..] == fs;
    }
  }

  /** What the line-driven reader has collected, and what the fold over the frames does. */
  function LineTurn(json: string -> Option<Chunk>, fs: seq<Field>): Turn {
    TakeLines(With(json), LineState("", Start), fs).turn
  }

  function FrameTurn(json: string -> Option<Chunk>, fs: seq<Field>): Turn {
    CollectAll(With(json), Start, Frames(Idle, fs))
  }

  ghost predicate AlwaysAgree(fs: seq<Field>) {
    forall json :: Admissible(json) ==> LineTurn(json, fs) == FrameTurn(json, fs)
  }

  lemma ReadersAgreeWhereHarmless(json: string -> Option<Chunk>, fs: seq<Field>)
    requires Admissible(json) && EventsFirst(Idle, fs) && Harmless(Idle, fs)
    requires forall f :: f in fs ==> StripsAlike(f)
    ensures LineTurn(json, fs) == Fold(With(json), Start, Idle, fs)
  {
    LinesAgree(json, Start, Idle, fs);
  }

  // ----- and nowhere else -----

  const CHUNK := Chunk(true, false, ["x"], "")

  /** A decoder of nothing but what goes over two lines. */
  function Broken(data: string): Option<Chunk> {
    if '\n' in Bare(data) then Some(CHUNK) else None
  }

  lemma BrokenIsAdmissible()
    ensures Admissible(Broken)
  {
    forall x
      ensures Broken(x) == Broken(Bare(x))
    {
      BareOfBlanks(x);
    }
    TrimIsTrimmed("[DONE]", JsonSpace);
  }

  function Weight(t: Turn): nat {
    |t.usage| + |t.answer|
  }

  lemma BrokenCollects(t: Turn, event: string, data: string)
    requires !t.failed
    ensures var t' := With(Broken)(t, event, data);
            !t'.failed && Weight(t') == Weight(t) + if Heard(event) && Broken(data).Some? then 1 else 0
  {
    TrimIsTrimmed("[DONE]", JsonSpace);
  }

  lemma BrokenFoldStep(t: Turn, r: Reader, f: Field)
    requires !t.failed
    ensures var t' := CollectAll(With(Broken), t, Yielded(r, f));
            !t'.failed
            && Weight(t') == Weight(t)
               + if f.Blank? && Pending(r) && Heard(r.event) && Broken(Joined(r)).Some? then 1 else 0
  {
    CollectYielded(With(Broken), t, r, f);
    BrokenCollects(t, r.event, Joined(r));
  }

  lemma {:induction false} FoldGrows(t: Turn, r: Reader, fs: seq<Field>)
    requires !t.failed
    ensures Weight(Fold(With(Broken), t, r, fs)) >= Weight(t)
    decreases |fs|
  {
    if fs == [] {
      BrokenCollects(t, r.event, Joined(r));
    } else {
      BrokenFoldStep(t, r, fs[0]);
      FoldGrows(CollectAll(With(Broken), t, Yielded(r, fs[0])), Feed(r, fs[0]), fs[1..]);
      FoldStep(With(Broken), t, r, fs[0], fs[1..]);
      assert [fs[0]] + fs[1..] == fs;
    }
  }

  /** The data read so far goes over two lines. */
  predicate TwoLoud(r: Reader) {
    Heard(r.event) && Broken(Joined(r)).Some?
  }

  lemma TwoLoudStays(r: Reader, f: Field)
    requires TwoLoud(r) && !f.Blank? && (f.EventField? ==> Quiet(Joined(r)))
    ensures TwoLoud(Feed(r, f))
  {
    if f.DataField? {
      JoinedGrows(r, f.data);
      if !Quiet(f.data) {
        FirstLineStays(Joined(r));
      }
    }
  }

  lemma FirstLineStays(s: string)
    requires '\n' in Bare(s)
    ensures '\n' in TrimLeft(s, JsonSpace)
  {
    TrimRightIs(TrimLeft(s, JsonSpace), JsonSpace);
  }

  lemma SecondLoudLine(r: Reader, d: string)
    requires Heard(r.event) && !Quiet(Joined(r)) && !Quiet(d)
    ensures TwoLoud(Feed(r, DataField(d)))
  {
    JoinedGrows(r, d);
    BareOfBlanks(d);
    TrimBlank(StripBlanks(d), JsonSpace);
    TrimRightConcat("\n", StripBlanks(d), JsonSpace);
  }

  lemma {:induction false} TwoLoudShows(t: Turn, r: Reader, fs: seq<Field>)
    requires !t.failed && TwoLoud(r) && EventsFirst(r, fs)
    ensures Weight(Fold(With(Broken), t, r, fs)) > Weight(t)
    decreases |fs|
  {
    assert r.data != [] by {
      assert r.data == [] ==> Joined(r) == "" && Bare("") == "";
    }
    if fs == [] {
      BrokenCollects(t, r.event, Joined(r));
    } else {
      var t' := CollectAll(With(Broken), t, Yielded(r, fs[0]));
      BrokenFoldStep(t, r, fs[0]);
      if fs[0].Blank? {
        FoldGrows(t', Feed(r, fs[0]), fs[1..]);
      } else {
        TwoLoudStays(r, fs[0]);
        TwoLoudShows(t', Feed(r, fs[0]), fs[1..]);
      }
      FoldStep(With(Broken), t, r, fs[0], fs[1..]);
      assert [fs[0]] + fs[1..] == fs;
    }
  }

  lemma {:induction false} HarmShows(t: Turn, r: Reader, fs: seq<Field>)
    requires !t.failed && EventsFirst(r, fs) && !Harmless(r, fs)
    ensures Weight(Fold(With(Broken), t, r, fs)) > Weight(t)
    decreases |fs|
  {
    var t' := CollectAll(With(Broken), t, Yielded(r, fs[0]));
    BrokenFoldStep(t, r, fs[0]);
    if DataOk(r, fs[0]) {
      HarmShows(t', Feed(r, fs[0]), fs[1..]);
    } else {
      SecondLoudLine(r, fs[0].data);
      TwoLoudShows(t', Feed(r, fs[0]), fs[1..]);
    }
    FoldStep(With(Broken), t, r, fs[0], fs[1..]);
    assert [fs[0]] + fs[1..] == fs;
  }

  /** A data line is one line. */
  predicate OneLine(f: Field) {
    f.DataField? ==> '\n' !in f.data
  }

  lemma {:induction false} LinesNeverShow(s: LineState, fs: seq<Field>)
    requires !s.turn.failed && forall f :: f in fs ==> OneLine(f)
    ensures TakeLines(With(Broken), s, fs).turn == s.turn
    decreases |fs|
  {
    if fs != [] {
      var f := fs[0];
      assert OneLine(f);
      if f.DataField? {
        TrimKeepsOut(f.data, IsSpace, '\n');
        TrimKeepsOut(Strip(f.data), JsonSpace, '\n');
      }
      LinesNeverShow(TakeLine(With(Broken), s, f), fs[1..]);
    }
  }

  // ----- the unfinished last frame -----

  /** The lines up to the last blank one. */
  function Finished(fs: seq<Field>): (a: seq<Field>)
    ensures |a| <= |fs| && a == fs[..|a|]
    ensures a != [] ==> a[|a| - 1].Blank?
  {
    if fs == [] || fs[|fs| - 1].Blank? then fs else Finished(fs[..|fs| - 1])
  }

  /** The lines behind it: sse_frames yields nothing for them. */
  function Unfinished(fs: seq<Field>): seq<Field> {
    fs[|Finished(fs)|..]
  }

  lemma {:induction false} UnfinishedHasNoBlank(fs: seq<Field>)
    ensures Blank !in Unfinished(fs)
  {
    if fs != [] && !fs[|fs| - 1].Blank? {
      var init := fs[..|fs| - 1];
      UnfinishedHasNoBlank(init);
      assert Finished(fs) == Finished(init);
      assert Unfinished(fs) == Unfinished(init) + [fs[|fs| - 1]];
    }
  }

  lemma {:induction false} NoBlankNoFrames(r: Reader, fs: seq<Field>)
    requires Blank !in fs
    ensures Frames(r, fs) == []
    decreases |fs|
  {
    if fs != [] {
      NoBlankNoFrames(Feed(r, fs[0]), fs[1..]);
    }
  }

  lemma AfterFinished(fs: seq<Field>)
    requires fs == [] || fs[|fs| - 1].Blank?
    ensures After(Idle, fs) == Idle
    ensures forall c, s :: TakeLines(c, LineState("", s), fs).event == ""
  {
    if fs != [] {
      var init := fs[..|fs| - 1];
      assert fs == init + [Blank];
      FramesConcat(Idle, init, [Blank]);
      FramesOne(After(Idle, init), Blank);
      forall c, s
        ensures TakeLines(c, LineState("", s), fs).event == ""
      {
        TakeLinesAppend(c, LineState("", s), init, Blank);
      }
    }
  }

  /** The fold sees the finished frames; the line-driven reader goes on from there. */
  lemma TurnsSplit(json: string -> Option<Chunk>, fs: seq<Field>)
    ensures var c, a := With(json), Finished(fs);
            && FrameTurn(json, fs) == FrameTurn(json, a) == Fold(c, Start, Idle, a)
            && LineTurn(json, fs) == TakeLines(c, LineState("", LineTurn(json, a)), Unfinished(fs)).turn
  {
    var c, a, b := With(json), Finished(fs), Unfinished(fs);
    assert fs == a + b;
    AfterFinished(a);
    UnfinishedHasNoBlank(fs);
    NoBlankNoFrames(Idle, b);
    FramesConcat(Idle, a, b);
    assert Frames(Idle, a) + [] == Frames(Idle, a);
    TakeLinesConcat(c, LineState("", Start), a, b);
    assert TakeLines(c, LineState("", Start), a) == LineState("", LineTurn(json, a));
  }

  /** No decoder takes it for a value. */
  predicate NeverAValue(data: string) {
    Quiet(data) || Bare(data) == "[DONE]"
  }

  /** In a frame that is looked into, no data line can be a value. */
  predicate SaysNothing(event: string, fs: seq<Field>)
    decreases |fs|
  {
    fs == []
    || ((fs[0].DataField? ==> !Heard(event) || NeverAValue(fs[0].data))
        && SaysNothing(EventAfter(event, fs[0]), fs[1..]))
  }

  function EventAfter(event: string, f: Field): string {
    match f
    case Blank => ""
    case EventField(e) => e
    case _ => event
  }

  lemma {:induction false} NothingIsCollected(json: string -> Option<Chunk>, s: LineState, fs: seq<Field>)
    requires Admissible(json) && SaysNothing(s.event, fs)
    requires forall f :: f in fs ==> StripsAlike(f)
    ensures TakeLines(With(json), s, fs).turn == s.turn
    decreases |fs|
  {
    if fs != [] {
      var f := fs[0];
      assert StripsAlike(f);
      if f.DataField? {
        BareOfBlanks(f.data);
        CollectsBare(json, s.turn, s.event, Strip(f.data), f.data);
        DecodesBare(json, Strip(f.data));
      }
      NothingIsCollected(json, TakeLine(With(json), s, f), fs[1..]);
    }
  }

  lemma OnlyCollects(value: string, t: Turn, event: string, data: string)
    requires !t.failed && value != "" && value != "[DONE]"
    ensures var t' := With(Only(value))(t, event, data);
            !t'.failed && Weight(t') == Weight(t) + if Heard(event) && Bare(data) == value then 1 else 0
  {
    OnlyIsAdmissible(value);
    DecodesBare(Only(value), data);
    BareOfBlanks(data);
  }

  lemma {:induction false} OnlyGrows(value: string, s: LineState, fs: seq<Field>)
    requires !s.turn.failed && value != "" && value != "[DONE]"
    ensures Weight(TakeLines(With(Only(value)), s, fs).turn) >= Weight(s.turn)
    decreases |fs|
  {
    if fs != [] {
      if fs[0].DataField? {
        OnlyCollects(value, s.turn, s.event, Strip(fs[0].data));
      }
      OnlyGrows(value, TakeLine(With(Only(value)), s, fs[0]), fs[1..]);
    }
  }

  /** What says something is collected by the decoder of just that. */
  lemma {:induction false} SomethingIsCollected(s: LineState, fs: seq<Field>) returns (value: string)
    requires !s.turn.failed && !SaysNothing(s.event, fs)
    requires forall f :: f in fs ==> StripsAlike(f)
    ensures value != "" && value != "[DONE]"
    ensures forall t: Turn :: !t.failed ==>
              Weight(TakeLines(With(Only(value)), LineState(s.event, t), fs).turn) > Weight(t)
    decreases |fs|
  {
    var f := fs[0];
    assert StripsAlike(f);
    if f.DataField? && Heard(s.event) && !NeverAValue(f.data) {
      value := Bare(f.data);
      BareOfBlanks(f.data);
      forall t: Turn | !t.failed
        ensures Weight(TakeLines(With(Only(value)), LineState(s.event, t), fs).turn) > Weight(t)
      {
        OnlyCollects(value, t, s.event, Strip(f.data));
        OnlyGrows(value, TakeLine(With(Only(value)), LineState(s.event, t), f), fs[1..]);
      }
    } else {
      value := SomethingIsCollected(LineState(EventAfter(s.event, f), Start), fs[1..]);
      forall t: Turn | !t.failed
        ensures Weight(TakeLines(With(Only(value)), LineState(s.event, t), fs).turn) > Weight(t)
      {
        if f.DataField? {
          OnlyCollects(value, t, s.event, Strip(f.data));
        }
        var s' := TakeLine(With(Only(value)), LineState(s.event, t), f);
        assert s' == LineState(EventAfter(s.event, f), s'.turn);
      }
    }
  }

  lemma {:induction false} OnlyNeverFails(value: string, t: Turn, frames: seq<Frame>)
    requires !t.failed && value != "" && value != "[DONE]"
    ensures !CollectAll(With(Only(value)), t, frames).failed
    decreases |frames|
  {
    if frames != [] {
      var f := frames[0];
      OnlyCollects(value, t, f.event, f.data);
      OnlyNeverFails(value, With(Only(value))(t, f.event, f.data), frames[1..]);
    }
  }

  /** Where events come first and the readers strip alike, the line-driven reader and the fold over
      sse_frames collect the same by every decoder exactly if no finished frame that is looked into
      has two data lines that are not white space, and an unfinished last one has none that could
      be a value. */
  lemma ReadersAgree(fs: seq<Field>)
    requires EventsFirst(Idle, Finished(fs)) && forall f :: f in fs ==> StripsAlike(f) && OneLine(f)
    ensures AlwaysAgree(fs) <==> Harmless(Idle, Finished(fs)) && SaysNothing("", Unfinished(fs))
  {
    var a, b := Finished(fs), Unfinished(fs);
    if !Harmless(Idle, a) {
      BrokenIsAdmissible();
      HarmShows(Start, Idle, a);
      LinesNeverShow(LineState("", Start), fs);
      TurnsSplit(Broken, fs);
      assert LineTurn(Broken, fs) != FrameTurn(Broken, fs);
    } else if !SaysNothing("", b) {
      var value := SomethingIsCollected(LineState("", Start), b);
      OnlyIsAdmissible(value);
      TurnsSplit(Only(value), fs);
      ReadersAgreeWhereHarmless(Only(value), a);
      OnlyNeverFails(value, Start, Frames(Idle, a));
      assert LineTurn(Only(value), fs) != FrameTurn(Only(value), fs);
    } else {
      forall json | Admissible(json)
        ensures LineTurn(json, fs) == FrameTurn(json, fs)
      {
        TurnsSplit(json, fs);
        ReadersAgreeWhereHarmless(json, a);
        NothingIsCollected(json, LineState("", LineTurn(json, a)), b);
      }
    }
  }

  lemma {:induction false} BlanksAreOneLine(data: string)
    requires '\n' !in StripBlanks(data)
    ensures '\n' !in data
  {
    if data != "" && data[0] == ' ' {
      BlanksAreOneLine(data[1..]);
      assert data == [data[0]] + data[1..];
    }
  }

  /** Every frame has at most one data line, and its event line before it. */
  predicate OneDataLine(r: Reader, fs: seq<Field>)
    decreases |fs|
  {
    fs == [] || (((fs[0].EventField? || fs[0].DataField?) ==> r.data == []) && OneDataLine(Feed(r, fs[0]), fs[1..]))
  }

  lemma {:induction false} OneDataLineIsHarmless(r: Reader, fs: seq<Field>)
    requires OneDataLine(r, fs)
    ensures EventsFirst(r, fs) && Harmless(r, fs)
    decreases |fs|
  {
    if fs != [] {
      OneDataLineIsHarmless(Feed(r, fs[0]), fs[1..]);
      assert r.data == [] ==> Joined(r) == "" && Bare("") == "";
    }
  }

  /** On any response whose frames have one data line, after its event line, the line-driven reader
      has collected what a fold over sse_frames collects, and the data of an unfinished last frame. */
  lemma ReadersAgreeOnOneLineFrames(json: string -> Option<Chunk>, stream: string)
    requires Admissible(json) && OneDataLine(Idle, FieldsOf(stream))
    requires forall f :: f in FieldsOf(stream) ==> StripsAlike(f)
    ensures var r, all := After(Idle, FieldsOf(stream)), CollectAll(With(json), Start, FramesOf(stream));
            LineTurn(json, FieldsOf(stream)) == if r.data == [] then all else With(json)(all, r.event, Joined(r))
  {
    OneDataLineIsHarmless(Idle, FieldsOf(stream));
    ReadersAgreeWhereHarmless(json, FieldsOf(stream));
  }

  /** The same of the lines of any response, finished or broken off: each is one line. */
  lemma ReadersAgreeOnResponses(stream: string)
    requires EventsFirst(Idle, Finished(FieldsOf(stream)))
    requires forall f :: f in FieldsOf(stream) ==> StripsAlike(f)
    ensures AlwaysAgree(FieldsOf(stream))
       <==> Harmless(Idle, Finished(FieldsOf(stream))) && SaysNothing("", Unfinished(FieldsOf(stream)))
  {
    RawLinesAreRaw(stream);
    FieldsAreClean(RawLines(stream));
    forall f | f in FieldsOf(stream)
      ensures OneLine(f)
    {
      if f.DataField? {
        assert CleanField(f);
        BlanksAreOneLine(f.data);
      }
    }
    ReadersAgree(FieldsOf(stream));
  }

  // ----- each condition is needed -----

  lemma FieldsAhead(r: Reader, f: Field, fs: seq<Field>)
    ensures EventsFirst(r, [f] + fs) <==> (f.EventField? ==> Quiet(Joined(r))) && EventsFirst(Feed(r, f), fs)
    ensures Harmless(r, [f] + fs) <==> DataOk(r, f) && Harmless(Feed(r, f), fs)
  {
    assert ([f] + fs)[1..] == fs;
  }

  /** The lines of a frame with two data lines. */
  function TwoLines(a: string, b: string): seq<Field> {
    [DataField(a)] + ([DataField(b)] + ([Blank] + []))
  }

  /** On a frame of two data lines the readers agree by every decoder exactly if one of the lines
      is white space. */
  lemma TwoDataLinesPart(a: string, b: string)
    requires Strip(a) == Bare(a) && Strip(b) == Bare(b) && '\n' !in a && '\n' !in b
    ensures AlwaysAgree(TwoLines(a, b)) <==> Quiet(a) || Quiet(b)
  {
    var fs := TwoLines(a, b);
    TwoLinesAreHarmless(a, b);
    assert fs[2].Blank? && Finished(fs) == fs && Unfinished(fs) == [];
    assert fs == [DataField(a), DataField(b), Blank];
    ReadersAgree(fs);
  }

  lemma TwoLinesAreHarmless(a: string, b: string)
    ensures EventsFirst(Idle, TwoLines(a, b))
    ensures Harmless(Idle, TwoLines(a, b)) <==> Quiet(a) || Quiet(b)
  {
    var one := Feed(Idle, DataField(a));
    assert Joined(Idle) == "" && Bare("") == "";
    JoinedGrows(Idle, a);
    BareOfBlanks(a);
    FieldsAhead(Idle, DataField(a), [DataField(b)] + ([Blank] + []));
    FieldsAhead(one, DataField(b), [Blank] + []);
    FieldsAhead(Feed(one, DataField(b)), Blank, []);
  }

  lemma TakeLinesStep(c: Collector, s: LineState, f: Field, fs: seq<Field>)
    ensures TakeLines(c, s, [f] + fs) == TakeLines(c, TakeLine(c, s, f), fs)
  {
    assert ([f] + fs)[1..] == fs;
  }

  lemma FoldOfOneFrame(c: Collector, r: Reader)
    ensures Fold(c, Start, r, [Blank] + []) == if Pending(r) then c(Start, r.event, Joined(r)) else Start
  {
    FoldStep(c, Start, r, Blank, []);
    CollectYielded(c, Start, r, Blank);
  }

  /** What the two readers collect from one data line under no event, and from one whose event
      follows it. */
  lemma TurnsOfOneLine(json: string -> Option<Chunk>, d: string, e: string)
    ensures LineTurn(json, [DataField(d)] + ([EventField(e)] + ([Blank] + []))) == With(json)(Start, "", Strip(d))
    ensures FrameTurn(json, [DataField(d)] + ([EventField(e)] + ([Blank] + []))) == With(json)(Start, e, StripBlanks(d))
  {
    var c, s := With(json), LineState("", Start);
    TakeLinesStep(c, s, DataField(d), [EventField(e)] + ([Blank] + []));
    TakeLinesStep(c, TakeLine(c, s, DataField(d)), EventField(e), [Blank] + []);
    TakeLinesStep(c, TakeLine(c, TakeLine(c, s, DataField(d)), EventField(e)), Blank, []);
    var one := Feed(Idle, DataField(d));
    assert one == Reader("", [StripBlanks(d)]);
    FoldStep(c, Start, Idle, DataField(d), [EventField(e)] + ([Blank] + []));
    FoldStep(c, Start, one, EventField(e), [Blank] + []);
    FoldOfOneFrame(c, Reader(e, [StripBlanks(d)]));
    AfterFinished([DataField(d)] + ([EventField(e)] + ([Blank] + [])));
  }

  /** A decoder of one value only. */
  function Only(value: string): string -> Option<Chunk> {
    (x: string) => if Bare(x) == value then Some(CHUNK) else None
  }

  lemma OnlyIsAdmissible(value: string)
    requires value != "" && value != "[DONE]"
    ensures Admissible(Only(value))
  {
    var json := Only(value);
    forall x
      ensures json(x) == json(Bare(x))
    {
      BareOfBlanks(x);
    }
    TrimIsTrimmed("[DONE]", JsonSpace);
  }

  /** On a response that breaks off behind one data line they agree by every decoder exactly if the
      line is never a value. */
  lemma UnfinishedDataParts(d: string)
    requires Strip(d) == Bare(d) && '\n' !in d
    ensures AlwaysAgree([DataField(d)]) <==> NeverAValue(d)
  {
    assert Finished([DataField(d)]) == [] by {
      assert [DataField(d)][..0] == [];
    }
    assert [DataField(d)][1..] == [];
    ReadersAgree([DataField(d)]);
  }

  /** With the event line behind its data line the readers agree by every decoder exactly if the
      event changes nothing or the data is never a value: white space, or the end marker. */
  lemma EventAfterDataParts(d: string, e: string)
    requires Strip(d) == Bare(d)
    ensures AlwaysAgree([DataField(d)] + ([EventField(e)] + ([Blank] + [])))
       <==> e == "" || Quiet(d) || Bare(d) == "[DONE]"
  {
    var fs := [DataField(d)] + ([EventField(e)] + ([Blank] + []));
    BareOfBlanks(d);
    forall json | Admissible(json) && (e == "" || Quiet(d) || Bare(d) == "[DONE]")
      ensures LineTurn(json, fs) == FrameTurn(json, fs)
    {
      TurnsOfOneLine(json, d, e);
      DecodesBare(json, Strip(d));
      DecodesBare(json, StripBlanks(d));
    }
    if e != "" && !Quiet(d) && Bare(d) != "[DONE]" {
      var json := Only(Bare(d));
      OnlyIsAdmissible(Bare(d));
      TurnsOfOneLine(json, d, e);
      DecodesBare(json, Strip(d));
      DecodesBare(json, StripBlanks(d));
      assert LineTurn(json, fs).answer != [] && FrameTurn(json, fs).answer == [];
    }
  }

  /** On a frame of one data line they agree by every decoder exactly if the line strips alike: not
      if it begins or ends in white space that is none to JSON, such as a form feed. */
  lemma LineThatStripsApart(d: string)
    ensures AlwaysAgree([DataField(d)] + ([Blank] + [])) <==> StripsAlike(DataField(d))
  {
    var fs := [DataField(d)] + ([Blank] + []);
    BareOfBlanks(d);
    StripIsBare(d);
    forall json | Admissible(json) && StripsAlike(DataField(d))
      ensures LineTurn(json, fs) == FrameTurn(json, fs)
    {
      TurnsOfBareLine(json, d);
      DecodesBare(json, Strip(d));
      DecodesBare(json, StripBlanks(d));
    }
    if Strip(d) != Bare(d) {
      BareIsLonger(d);
      TrimIsTrimmed("", IsSpace);
      var json := Only(Bare(d));
      OnlyIsAdmissible(Bare(d));
      TurnsOfBareLine(json, d);
      DecodesBare(json, Strip(d));
      DecodesBare(json, StripBlanks(d));
      assert LineTurn(json, fs).answer == [] && FrameTurn(json, fs).answer == ["x"];
    }
  }

  lemma BareIsLonger(d: string)
    ensures Bare(d) == "" ==> Strip(d) == ""
    ensures Bare(d) == "[DONE]" ==> Strip(d) == "[DONE]"
  {
    TrimAfterTrimLess(d, JsonSpace, IsSpace);
    TrimIsTrimmed("[DONE]", IsSpace);
  }

  lemma TurnsOfBareLine(json: string -> Option<Chunk>, d: string)
    ensures LineTurn(json, [DataField(d)] + ([Blank] + [])) == With(json)(Start, "", Strip(d))
    ensures FrameTurn(json, [DataField(d)] + ([Blank] + [])) == With(json)(Start, "", StripBlanks(d))
  {
    var c, s := With(json), LineState("", Start);
    TakeLinesStep(c, s, DataField(d), [Blank] + []);
    TakeLinesStep(c, TakeLine(c, s, DataField(d)), Blank, []);
    assert Feed(Idle, DataField(d)) == Reader("", [StripBlanks(d)]);
    FoldStep(c, Start, Idle, DataField(d), [Blank] + []);
    FoldOfOneFrame(c, Reader("", [StripBlanks(d)]));
    AfterFinished([DataField(d)] + ([Blank] + []));
  }

  // ----- text_of -----

  /** text_of: the contents of every frame without an event; None where it raises, on a chunk
      that is not an object. */
  function TextOf(json: string -> Option<Chunk>, frames: seq<Frame>): Option<seq<string>>
    decreases |frames|
  {
    if frames == [] then Some([])
    else
      var f := frames[0];
      var chunk := if f.event == "" then Decoded(json, f.data) else None;
      if chunk.None? then TextOf(json, frames[1..])
      else if !chunk.value.isObject then None
      else
        match TextOf(json, frames[1..])
        case None => None
        case Some(rest) => Some(chunk.value.contents + rest)
  }

  /** Unless a chunk without an event is no object or reports an error, the answer of the turn is
      the text of its frames. */
  lemma {:induction false} AnswerIsTextOf(json: string -> Option<Chunk>, t: Turn, frames: seq<Frame>)
    requires !t.failed
    requires forall f :: f in frames && f.event == "" && Decoded(json, f.data).Some? ==>
               Decoded(json, f.data).value.isObject && !Decoded(json, f.data).value.error
    ensures TextOf(json, frames).Some?
    ensures CollectAll(With(json), t, frames).answer == t.answer + TextOf(json, frames).value
    ensures !CollectAll(With(json), t, frames).failed
    decreases |frames|
  {
    if frames != [] {
      AnswerIsTextOf(json, Collect(json, t, frames[0].event, frames[0].data), frames[1..]);
    }
  }

  // ----- what a turn collects -----

  /** The value of a frame, if it has one. */
  predicate HasValue(json: string -> Option<Chunk>, f: Frame) {
    f.data != "[DONE]" && json(f.data).Some?
  }

  /** A chunk object without an event reports an error. */
  predicate ReportsError(json: string -> Option<Chunk>, f: Frame) {
    f.event == "" && HasValue(json, f) && json(f.data).value.isObject && json(f.data).value.error
  }

  /** The frames before the first that reports an error. */
  function Heeded(json: string -> Option<Chunk>, frames: seq<Frame>): seq<Frame> {
    if frames == [] || ReportsError(json, frames[0]) then [] else [frames[0]] + Heeded(json, frames[1..])
  }

  /** The values of the usage frames, in order and as they were decoded. */
  function UsageOf(json: string -> Option<Chunk>, frames: seq<Frame>): seq<Chunk> {
    if frames == [] then []
    else
      (if frames[0].event == "usage_update" && HasValue(json, frames[0]) then [json(frames[0].data).value] else [])
      + UsageOf(json, frames[1..])
  }

  /** The contents of the chunk objects without an event, in order. */
  function ContentsOf(json: string -> Option<Chunk>, frames: seq<Frame>): seq<string> {
    if frames == [] then []
    else
      (if frames[0].event == "" && HasValue(json, frames[0]) && json(frames[0].data).value.isObject
       then json(frames[0].data).value.contents else [])
      + ContentsOf(json, frames[1..])
  }

  lemma {:induction false} FailedCollectsNothing(json: string -> Option<Chunk>, t: Turn, frames: seq<Frame>)
    requires t.failed
    ensures CollectAll(With(json), t, frames) == t
    decreases |frames|
  {
    if frames != [] {
      FailedCollectsNothing(json, With(json)(t, frames[0].event, frames[0].data), frames[1..]);
    }
  }

  lemma CollectsOneFrame(json: string -> Option<Chunk>, t: Turn, f: Frame)
    requires !t.failed
    ensures var t' := With(json)(t, f.event, f.data);
            && (t'.failed <==> ReportsError(json, f))
            && (t'.failed ==> t'.usage == t.usage && t'.answer == t.answer)
            && (!t'.failed ==>
                  t'.usage == t.usage + UsageOf(json, [f]) && t'.answer == t.answer + ContentsOf(json, [f]))
  {
    assert [f][1..] == [];
    assert UsageOf(json, [f])
        == if f.event == "usage_update" && HasValue(json, f) then [json(f.data).value] else [];
    assert ContentsOf(json, [f])
        == if f.event == "" && HasValue(json, f) && json(f.data).value.isObject
           then json(f.data).value.contents else [];
    assert t.usage + [] == t.usage && t.answer + [] == t.answer;
  }

  lemma OfFrames(json: string -> Option<Chunk>, f: Frame, frames: seq<Frame>)
    ensures UsageOf(json, [f] + frames) == UsageOf(json, [f]) + UsageOf(json, frames)
    ensures ContentsOf(json, [f] + frames) == ContentsOf(json, [f]) + ContentsOf(json, frames)
  {
    assert ([f] + frames)[1..] == frames && [f][1..] == [];
    assert UsageOf(json, []) == [] && ContentsOf(json, []) == [];
  }

  /** A turn has collected the usage frames and the contents of the chunks, in order and unchanged, up
      to the first error that is reported, and has failed exactly if one is. */
  lemma {:induction false} TurnsCollectTheirFrames(json: string -> Option<Chunk>, t: Turn, frames: seq<Frame>)
    requires !t.failed
    ensures var end, heeded := CollectAll(With(json), t, frames), Heeded(json, frames);
            && end.usage == t.usage + UsageOf(json, heeded)
            && end.answer == t.answer + ContentsOf(json, heeded)
            && (end.failed <==> exists f :: f in frames && ReportsError(json, f))
    decreases |frames|
  {
    if frames == [] {
      assert t.usage + [] == t.usage && t.answer + [] == t.answer;
    } else {
      var f, rest := frames[0], frames[1..];
      var t' := With(json)(t, f.event, f.data);
      CollectsOneFrame(json, t, f);
      assert f in frames && (forall g :: g in frames <==> g == f || g in rest);
      if ReportsError(json, f) {
        FailedCollectsNothing(json, t', rest);
        assert t.usage + [] == t.usage && t.answer + [] == t.answer;
      } else {
        TurnsCollectTheirFrames(json, t', rest);
        OfFrames(json, f, Heeded(json, rest));
        Behind(t.usage, UsageOf(json, [f]), UsageOf(json, Heeded(json, rest)));
        Behind(t.answer, ContentsOf(json, [f]), ContentsOf(json, Heeded(json, rest)));
      }
    }
  }

  lemma Behind<T>(a: seq<T>, b: seq<T>, c: seq<T>)
    ensures a + b + c == a + (b + c)
  {
  }
}
