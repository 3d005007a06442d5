/** acpWakeNotice: every session update passes through to the client, and one that tells of a
    background wake is followed by the same wake as agent text, set apart as a Markdown quote. */
module WakeNotice {
  import opened Options
  import opened Text

  /** BackgroundWake carries the text BackgroundWakeNote gives for it. */
  datatype Update =
    | BackgroundWake(text: string)
    | MessageChunk(text: string)
    | Other(payload: string)

  datatype Call = Call(session: string, update: Update)

  /** One call of the wrapped sender, and the error it returned. */
  datatype Attempt = Attempt(call: Call, err: Option<string>)

  // ----- the text of the note -----

  function Quoted(lines: seq<string>): seq<string> {
    if lines == [] then [] else ["> " + lines[0]] + Quoted(lines[1..])
  }

  /** What the client is sent for a wake of this text. */
  function Note(text: string): string {
    Join(Quoted(Split(text, '\n')), "\n") + "\n\n"
  }

  method QuoteLines(text: string) returns (note: string)
    ensures note == Note(text)
  {
    var pieces := Split(text, '\n');
    var lines := new string[|pieces|](i requires 0 <= i < |pieces| => pieces[i]);
    for i := 0 to lines.Length
      invariant forall k :: 0 <= k < i ==> lines[k] == "> " + pieces[k]
      invariant forall k :: i <= k < lines.Length ==> lines[k] == pieces[k]
    {
      lines[i] := "> " + lines[i];
    }
    QuotedAt(pieces, lines[..]);
    note := Join(lines[..], "\n") + "\n\n";
  }

  lemma {:induction false} QuotedAt(lines: seq<string>, quoted: seq<string>)
    requires |lines| == |quoted| && forall k :: 0 <= k < |lines| ==> quoted[k] == "> " + lines[k]
    ensures quoted == Quoted(lines)
  {
    if lines != [] {
      QuotedAt(lines[1..], quoted[1..]);
    }
  }

  /** The block quote a text begins with, its lines freed of their marks, and the lines behind it. */
  function TakeQuote(lines: seq<string>): (r: (seq<string>, seq<string>))
    ensures lines == Quoted(r.0) + r.1
  {
    if lines == [] || !("> " <= lines[0]) then ([], lines)
    else
      var (quote, rest) := TakeQuote(lines[1..]);
      assert lines[0] == "> " + lines[0][2..];
      ([lines[0][2..]] + quote, rest)
  }

  /** A message read as a quote, a blank line and an answer. */
  function ReadNote(message: string): Option<(string, string)> {
    var (quote, rest) := TakeQuote(Split(message, '\n'));
    if quote == [] || |rest| < 2 || rest[0] != "" then None
    else Some((Join(quote, "\n"), Join(rest[1..], "\n")))
  }

  lemma {:induction false} TakesTheQuote(lines: seq<string>, rest: seq<string>)
    requires rest != [] && rest[0] == ""
    ensures TakeQuote(Quoted(lines) + rest) == (lines, rest)
  {
    var all := Quoted(lines) + rest;
    if lines == [] {
      assert all == rest;
    } else {
      assert all[1..] == Quoted(lines[1..]) + rest;
      TakesTheQuote(lines[1..], rest);
      assert all[0] == "> " + lines[0];
      assert all[0][..2] == "> " && all[0][2..] == lines[0];
      assert lines == [lines[0]] + lines[1..];
    }
  }

  lemma {:induction false} JoinConcat(a: seq<string>, b: seq<string>, sep: string)
    requires a != [] && b != []
    ensures Join(a + b, sep) == Join(a, sep) + sep + Join(b, sep)
  {
    assert (a + b)[1..] == a[1..] + b;
    if |a| == 1 {
      assert a[1..] + b == b;
    } else {
      JoinConcat(a[1..], b, sep);
      var first, rest, last := a[0], Join(a[1..], sep), Join(b, sep);
      assert first + sep + (rest + sep + last) == first + sep + rest + sep + last;
    }
  }

  lemma {:induction false} QuotedKeepsLines(lines: seq<string>)
    ensures |Quoted(lines)| == |lines|
    ensures (forall l :: l in lines ==> '\n' !in l) <==> (forall q :: q in Quoted(lines) ==> '\n' !in q)
  {
    if lines != [] {
      QuotedKeepsLines(lines[1..]);
      assert lines == [lines[0]] + lines[1..];
      var q := "> " + lines[0];
      assert '\n' in q <==> '\n' in lines[0];
    }
  }

  /** The lines of a note with an answer behind it: the quote, a blank line, the answer. */
  lemma NoteLines(text: string, answer: string)
    ensures Split(Note(text) + answer, '\n') == Quoted(Split(text, '\n')) + ([""] + Split(answer, '\n'))
  {
    var quote, tail := Quoted(Split(text, '\n')), [""] + Split(answer, '\n');
    QuotedKeepsLines(Split(text, '\n'));
    JoinConcat(quote, tail, "\n");
    JoinSplit(answer, '\n');
    assert tail[1..] == Split(answer, '\n');
    assert Join(tail, "\n") == "\n" + answer;
    assert Note(text) + answer == Join(quote, "\n") + "\n" + ("\n" + answer);
    SplitJoin(quote + tail, '\n');
  }

  /** The note is set apart from the answer behind it, and both come back whole: a message reads
      as this text and this answer exactly when it is the note of the text with the answer behind
      it, empty lines and trailing line ends included. */
  lemma NoteReadsBack(message: string, text: string, answer: string)
    ensures ReadNote(message) == Some((text, answer)) <==> message == Note(text) + answer
  {
    if message == Note(text) + answer {
      NoteLines(text, answer);
      TakesTheQuote(Split(text, '\n'), [""] + Split(answer, '\n'));
      assert ([""] + Split(answer, '\n'))[1..] == Split(answer, '\n');
      JoinSplit(text, '\n');
      JoinSplit(answer, '\n');
    }
    if ReadNote(message) == Some((text, answer)) {
      var (quote, rest) := TakeQuote(Split(message, '\n'));
      QuotedKeepsLines(quote);
      SplitJoin(quote, '\n');
      SplitJoin(rest[1..], '\n');
      NoteLines(text, answer);
      assert rest == [""] + rest[1..];
      JoinSplit(message, '\n');
      JoinSplit(Note(text) + answer, '\n');
    }
  }

  // ----- the updates -----

  /** The client's end: what it answers to the k-th call, whatever it is sent; and the text a wake
      is noted with. */
  datatype Client = Client(fails: nat -> Option<string>, note: string -> string)

  function Sent(c: Client, log: seq<Attempt>, call: Call): seq<Attempt> {
    log + [Attempt(call, c.fails(|log|))]
  }

  function NoteOf(c: Client, call: Call): Call
    requires call.update.BackgroundWake?
  {
    Call(call.session, MessageChunk(c.note(call.update.text)))
  }

  /** SendSessionUpdate: the attempts after it, and the error it returns. */
  function Handle(c: Client, log: seq<Attempt>, call: Call): (seq<Attempt>, Option<string>) {
    var sent := Sent(c, log, call);
    var err := c.fails(|log|);
    if err.Some? then (sent, err)
    else if !call.update.BackgroundWake? then (sent, None)
    else (Sent(c, sent, NoteOf(c, call)), c.fails(|sent|))
  }

  function HandleAll(c: Client, log: seq<Attempt>, calls: seq<Call>): seq<Attempt>
    decreases |calls|
  {
    if calls == [] then log else HandleAll(c, Handle(c, log, calls[0]).0, calls[1..])
  }

  /** The client's end, and the sender wrapped around it. */
  class Sender {
    const fails: nat -> Option<string>
    var log: seq<Attempt>

    function End(): Client {
      Client(fails, Note)
    }

    constructor (fails: nat -> Option<string>)
      ensures this.fails == fails && log == []
    {
      this.fails := fails;
      log := [];
    }

    method Send(call: Call) returns (err: Option<string>)
      modifies this
      ensures log == Sent(End(), old(log), call) && err == fails(|old(log)|)
    {
      err := fails(|log|);
      log := log + [Attempt(call, err)];
    }

    method SendSessionUpdate(session: string, update: Update) returns (err: Option<string>)
      modifies this
      ensures (log, err) == Handle(End(), old(log), Call(session, update))
    {
      err := Send(Call(session, update));
      if err.Some? {
        return;
      }
      if !update.BackgroundWake? {
        return;
      }
      var note := QuoteLines(update.text);
      err := Send(Call(session, MessageChunk(note)));
    }
  }

  /** This attempt told the client of a wake. */
  predicate ToldWake(a: Attempt) {
    a.call.update.BackgroundWake? && a.err.None?
  }

  /** The calls behind a log: all its attempts but the one after each wake the client was told of. */
  function Calls(log: seq<Attempt>): seq<Call> {
    if log == [] then [] else [log[0].call] + Calls(log[Width(log)..])
  }

  /** The attempts of the first call. */
  function Width(log: seq<Attempt>): (n: nat)
    requires log != []
    ensures 1 <= n <= |log|
  {
    if ToldWake(log[0]) && |log| > 1 then 2 else 1
  }

  /** A wake the client was told of at position i is followed by its note. */
  predicate NotedAt(c: Client, log: seq<Attempt>, i: nat) {
    i < |log| && ToldWake(log[i]) ==>
      && i + 1 < |log|
      && log[i + 1].call.session == log[i].call.session
      && log[i + 1].call.update == MessageChunk(c.note(log[i].call.update.text))
  }

  lemma {:induction false} CallsConcat(a: seq<Attempt>, b: seq<Attempt>)
    requires a != [] ==> !ToldWake(a[|a| - 1])
    ensures Calls(a + b) == Calls(a) + Calls(b)
    decreases |a|
  {
    if a == [] {
      assert a + b == b;
    } else {
      var n := Width(a);
      assert Width(a + b) == n && (a + b)[n..] == a[n..] + b;
      CallsConcat(a[n..], b);
      assert [a[0].call] + Calls(a[n..]) + Calls(b) == [a[0].call] + (Calls(a[n..]) + Calls(b));
    }
  }

  /** What SendSessionUpdate keeps of the log: each wake is noted, the last attempt told of none,
      and every attempt was answered by the client. */
  ghost predicate Noted(c: Client, log: seq<Attempt>) {
    && (log != [] ==> !ToldWake(log[|log| - 1]))
    && (forall i :: 0 <= i < |log| ==> NotedAt(c, log, i))
    && (forall i :: 0 <= i < |log| ==> Answered(c, log[i], i))
  }

  predicate Answered(c: Client, a: Attempt, k: nat) {
    a.err == c.fails(k)
  }

  /** A log may grow by one attempt that told of no wake, or by a wake and its note. */
  lemma GrowKeepsNoted(c: Client, log: seq<Attempt>, more: seq<Attempt>)
    requires Noted(c, log) && more != [] && !ToldWake(more[|more| - 1])
    requires forall i :: 0 <= i < |more| ==> NotedAt(c, more, i)
    requires forall i :: 0 <= i < |more| ==> Answered(c, more[i], |log| + i)
    ensures Noted(c, log + more) && Calls(log + more) == Calls(log) + Calls(more)
  {
    CallsConcat(log, more);
    var all := log + more;
    forall i | 0 <= i < |all|
      ensures NotedAt(c, all, i)
    {
      GrowKeepsNotedAt(c, log, more, i);
    }
  }

  lemma GrowKeepsNotedAt(c: Client, log: seq<Attempt>, more: seq<Attempt>, i: nat)
    requires i < |log| ==> NotedAt(c, log, i)
    requires i >= |log| ==> NotedAt(c, more, i - |log|)
    ensures NotedAt(c, log + more, i)
  {
  }

  lemma HandleKeepsNoted(c: Client, log: seq<Attempt>, call: Call)
    requires Noted(c, log)
    ensures var log' := Handle(c, log, call).0;
            log <= log' && Noted(c, log') && Calls(log') == Calls(log) + [call]
  {
    var first := Attempt(call, c.fails(|log|));
    if ToldWake(first) {
      var second := Attempt(NoteOf(c, call), c.fails(|log| + 1));
      var more := [first, second];
      assert NotedAt(c, more, 0) && NotedAt(c, more, 1);
      assert more[2..] == [] && Calls(more) == [call];
      GrowKeepsNoted(c, log, more);
      assert log + [first] + [second] == log + more;
    } else {
      var more := [first];
      assert NotedAt(c, more, 0);
      assert more[1..] == [] && Calls(more) == [call];
      GrowKeepsNoted(c, log, more);
    }
  }

  /** Over any updates and any pattern of failures: the client's end is sent every update once and
      in order, each wake it was told of is followed at once by one attempt at its note, and
      nothing else is sent. */
  lemma {:induction false} EveryUpdateOnceAndInOrder(c: Client, log: seq<Attempt>, calls: seq<Call>)
    requires Noted(c, log)
    ensures var log' := HandleAll(c, log, calls);
            Noted(c, log') && Calls(log') == Calls(log) + calls
    decreases |calls|
  {
    if calls == [] {
      assert Calls(log) + [] == Calls(log);
    } else {
      HandleKeepsNoted(c, log, calls[0]);
      EveryUpdateOnceAndInOrder(c, Handle(c, log, calls[0]).0, calls[1..]);
      assert Calls(log) + [calls[0]] + calls[1..] == Calls(log) + calls;
    }
  }

  /** A call returns an error exactly when one of its attempts failed, and it is that attempt's. */
  lemma ErrorsComeFromTheAttempts(c: Client, log: seq<Attempt>, call: Call)
    ensures var (log', err) := Handle(c, log, call);
            err == log'[|log'| - 1].err && forall i :: |log| <= i < |log'| - 1 ==> log'[i].err == None
  {
  }
}
