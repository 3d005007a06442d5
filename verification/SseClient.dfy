/** What a client reads off the event stream of the legacy HTTP+SSE transport: the server's
    writes, joined to the frame reader. */
module SseClient {
  import opened Text
  import opened EventStream
  import opened SseServer

  /** The bytes of a chunk; encode is json.dumps of a reply. */
  function Wire(encode: Reply -> string, g: nat, c: Chunk): string {
    match c
    case Endpoint => Line("event: endpoint") + Line("data: " + (ENDPOINT + Itoa(g))) + Line("")
    case Sent(i) => Line("event: message") + Line("data: " + encode(i.reply)) + Line("")
    case KeptAlive => Line(": ping") + Line("")
  }

  function WireAll(encode: Reply -> string, g: nat, stream: seq<Chunk>): string {
    if stream == [] then "" else Wire(encode, g, stream[0]) + WireAll(encode, g, stream[1..])
  }

  function EndpointFrame(g: nat): Frame {
    Frame("endpoint", ENDPOINT + Itoa(g))
  }

  function MessageFrame(encode: Reply -> string, i: Item): Frame {
    Frame("message", encode(i.reply))
  }

  function AsWritten(encode: Reply -> string, g: nat, c: Chunk): Written {
    match c
    case Endpoint => Event(EndpointFrame(g))
    case Sent(i) => Event(MessageFrame(encode, i))
    case KeptAlive => Ping
  }

  function AllWritten(encode: Reply -> string, g: nat, stream: seq<Chunk>): seq<Written> {
    if stream == [] then [] else [AsWritten(encode, g, stream[0])] + AllWritten(encode, g, stream[1..])
  }

  function MessageFrames(encode: Reply -> string, items: seq<Item>): seq<Frame> {
    if items == [] then [] else [MessageFrame(encode, items[0])] + MessageFrames(encode, items[1..])
  }

  /** All that is asked of json.dumps: one line, which neither begins with a space nor ends with
      a carriage return. */
  ghost predicate EncodesLines(encode: Reply -> string) {
    forall r :: CleanLine(encode(r)) && '\n' !in encode(r)
  }

  lemma OneLineFrame(event: string, data: string)
    requires event != "" && '\n' !in data
    ensures Print(Frame(event, data)) == Line("event: " + event) + Line("data: " + data) + Line("")
    ensures Split(data, '\n') == [data]
  {
    SplitPiece(data, "", '\n');
    assert DataLines([data]) == Line("data: " + data) by {
      assert [data][1..] == [];
    }
  }

  lemma EndpointIsOneLine(g: nat)
    ensures '\n' !in ENDPOINT + Itoa(g) && CleanLine(ENDPOINT + Itoa(g))
  {
    var path := ENDPOINT + Itoa(g);
    assert path[|path| - 1] == Itoa(g)[|Itoa(g)| - 1];
    assert Itoa(g)[|Itoa(g)| - 1] in Itoa(g);
  }

  lemma EndpointIsPrinted(g: nat)
    ensures Line("event: endpoint") + Line("data: " + (ENDPOINT + Itoa(g))) + Line("") == Print(EndpointFrame(g))
    ensures Clean(EndpointFrame(g))
  {
    EndpointIsOneLine(g);
    OneLineFrame("endpoint", ENDPOINT + Itoa(g));
    assert "event: " + "endpoint" == "event: endpoint";
  }

  lemma MessageIsPrinted(encode: Reply -> string, i: Item)
    requires EncodesLines(encode)
    ensures Line("event: message") + Line("data: " + encode(i.reply)) + Line("") == Print(MessageFrame(encode, i))
    ensures Clean(MessageFrame(encode, i))
  {
    OneLineFrame("message", encode(i.reply));
    assert "event: " + "message" == "event: message";
  }

  lemma WireIsPrinted(encode: Reply -> string, g: nat, c: Chunk)
    requires EncodesLines(encode)
    ensures Wire(encode, g, c) == match AsWritten(encode, g, c) case Event(f) => Print(f) case Ping => PING
    ensures AsWritten(encode, g, c).Event? ==> Clean(AsWritten(encode, g, c).frame)
  {
    match c
    case Endpoint => EndpointIsPrinted(g);
    case Sent(i) => MessageIsPrinted(encode, i);
    case KeptAlive =>
  }

  lemma {:induction false} WireAllIsPrinted(encode: Reply -> string, g: nat, stream: seq<Chunk>)
    requires EncodesLines(encode)
    ensures WireAll(encode, g, stream) == PrintWritten(AllWritten(encode, g, stream))
    ensures forall f :: f in EventsOf(AllWritten(encode, g, stream)) ==> Clean(f)
  {
    if stream != [] {
      WireIsPrinted(encode, g, stream[0]);
      WireAllIsPrinted(encode, g, stream[1..]);
    }
  }

  lemma {:induction false} EventsAreReplies(encode: Reply -> string, g: nat, stream: seq<Chunk>)
    requires Endpoint !in stream
    ensures EventsOf(AllWritten(encode, g, stream)) == MessageFrames(encode, Carried(stream))
  {
    if stream != [] {
      assert stream[0] != Endpoint;
      EventsAreReplies(encode, g, stream[1..]);
      CarriedFirst(stream);
      var rest := Carried(stream[1..]);
      assert AllWritten(encode, g, stream)[1..] == AllWritten(encode, g, stream[1..]);
      match stream[0]
      case Sent(i) => assert ([i] + rest)[1..] == rest;
      case KeptAlive => assert [] + rest == rest;
    }
  }

  lemma {:induction false} CarriedFirst(stream: seq<Chunk>)
    requires stream != []
    ensures Carried(stream) == (match stream[0] case Sent(i) => [i] case _ => []) + Carried(stream[1..])
  {
    var init, last := stream[..|stream| - 1], stream[|stream| - 1];
    if |stream| == 1 {
      assert init == [];
    } else {
      CarriedFirst(init);
      assert init[1..] == stream[1..][..|stream| - 2];
    }
  }

  lemma StreamReads(encode: Reply -> string, g: nat, x: Session)
    requires EncodesLines(encode) && WellAnnounced(x)
    ensures FramesOf(WireAll(encode, g, x.stream))
         == if x.stream == [] then [] else [EndpointFrame(g)] + MessageFrames(encode, Carried(x.stream))
  {
    WireAllIsPrinted(encode, g, x.stream);
    PingsAreInvisible(AllWritten(encode, g, x.stream));
    if x.stream != [] {
      var rest := x.stream[1..];
      CarriedFirst(x.stream);
      assert Carried(x.stream) == Carried(rest);
      EventsAreReplies(encode, g, rest);
      assert AllWritten(encode, g, x.stream)[1..] == AllWritten(encode, g, rest);
    }
  }

  /** In every run, a client that reads its stream with sse_frames reads the endpoint of its own
      session and then, in order and without gaps, the first of the replies enqueued for it; the
      keepalives do not show. */
  lemma ClientReadsItsReplies(encode: Reply -> string, steps: seq<Step>, g: nat)
    requires EncodesLines(encode)
    requires Legal(Init, steps) && g in Final(Init, steps).sessions
    ensures var x := Final(Init, steps).sessions[g];
            && FramesOf(WireAll(encode, g, x.stream))
               == (if x.stream == [] then [] else [EndpointFrame(g)] + MessageFrames(encode, Carried(x.stream)))
            && Carried(x.stream) <= x.enqueued
  {
    RunInv(steps);
    var x := Final(Init, steps).sessions[g];
    assert SessionInv(x);
    StreamReads(encode, g, x);
  }
}
