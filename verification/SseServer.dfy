/** The legacy HTTP+SSE transport of an MCP server: a GET opens an event stream that names the
    endpoint to post to and then carries every reply; a POST looks its session up under the lock,
    answers, and puts the reply on the session's queue. Each step is one atomic action of one of
    the handler threads; opens, posts, keepalives and disconnects interleave freely. */
module SseServer {
  import opened Options
  import opened Text

  // ----- messages -----

  /** A JSON body: a JSON-RPC message - one without an id is a notification - or no object. */
  datatype Message = Message(id: Option<string>, verb: string) | NotAnObject

  datatype Result = Initialized | Tools | Content(text: string) | Empty

  datatype Reply = Reply(id: string, result: Result)

  /** mcp_answer. On a body that is no object it raises, which ends the handler as an answer of
      none does. */
  function McpAnswer(m: Message, token: string): Option<Reply> {
    match m
    case NotAnObject => None
    case Message(None, _) => None
    case Message(Some(id), verb) =>
      Some(Reply(id,
        if verb == "initialize" then Initialized
        else if verb == "tools/list" then Tools
        else if verb == "tools/call" then Content(token)
        else Empty))
  }

  /** The message is one that is answered. */
  predicate AsksForReply(m: Message) {
    m.Message? && m.id.Some?
  }

  const TOKEN := "SSE-OK"
  const ENDPOINT := "/messages?session="

  /** What follows the first "session=", or the whole path. */
  function SessionOf(path: string): string {
    match AfterFirst(path, "session=")
    case Some(rest) => rest
    case None => path
  }

  function AfterFirst(s: string, mark: string): Option<string> {
    if mark <= s then Some(s[|mark|..])
    else if s == "" then None
    else AfterFirst(s[1..], mark)
  }

  // ----- states -----

  /** A reply on its way, with the post that asked for it. */
  datatype Item = Item(post: nat, reply: Reply)

  datatype Chunk = Endpoint | Sent(item: Item) | KeptAlive

  /** Where the GET handler of a session is. */
  datatype Phase =
    | Opening                     // registered, the headers not yet written
    | Announcing                  // the endpoint not yet written
    | Waiting                     // in out.get
    | PingDue                     // the queue stayed empty for a second
    | Holding(item: Item)         // a reply taken off the queue, not yet written
    | Closing(lost: seq<Item>)    // a write failed; lost is what it carried
    | Gone(lost: seq<Item>)       // unregistered, the handler has ended
    | Leaked                      // the headers could not be written: ended before the try

  datatype Session = Session(queue: seq<Item>, phase: Phase, stream: seq<Chunk>, enqueued: seq<Item>)

  /** Where a POST handler is; out is what the lookup found. */
  datatype Stage =
    | Arrived
    | LookedUp(out: Option<nat>)
    | Answered(out: Option<nat>, status: nat)
    | Finished(out: Option<nat>, status: nat)
    | Aborted

  datatype Post = Post(path: string, message: Message, stage: Stage, registered: bool)

  /** sse_ids, sse_sessions, and every session and post there ever was. */
  datatype State = State(next: nat, table: map<string, nat>, sessions: map<nat, Session>, posts: seq<Post>)

  const Init := State(1, map[], map[], [])

  datatype Step =
    | Open
    | Headers(g: nat)
    | FailHeaders(g: nat)
    | Announce(g: nat)
    | Get(g: nat)
    | TimeOut(g: nat)
    | Write(g: nat)               // of a reply or of a keepalive
    | FailWrite(g: nat)
    | Unregister(g: nat)
    | Arrive(path: string, message: Message)
    | Lookup(p: nat)
    | Respond(p: nat)
    | Abort(p: nat)               // the response cannot be written
    | Put(p: nat)

  predicate Writing(phase: Phase) {
    phase.Announcing? || phase.PingDue? || phase.Holding?
  }

  predicate Enabled(s: State, step: Step) {
    match step
    case Open => true
    case Headers(g) => g in s.sessions && s.sessions[g].phase.Opening?
    case FailHeaders(g) => g in s.sessions && s.sessions[g].phase.Opening?
    case Announce(g) => g in s.sessions && s.sessions[g].phase.Announcing?
    case Get(g) => g in s.sessions && s.sessions[g].phase.Waiting? && s.sessions[g].queue != []
    case TimeOut(g) => g in s.sessions && s.sessions[g].phase.Waiting? && s.sessions[g].queue == []
    case Write(g) => g in s.sessions && (s.sessions[g].phase.PingDue? || s.sessions[g].phase.Holding?)
    case FailWrite(g) => g in s.sessions && Writing(s.sessions[g].phase)
    case Unregister(g) => g in s.sessions && s.sessions[g].phase.Closing?
    case Arrive(_, _) => true
    case Lookup(p) => p < |s.posts| && s.posts[p].stage.Arrived?
    case Respond(p) => p < |s.posts| && s.posts[p].stage.LookedUp?
    case Abort(p) => p < |s.posts| && s.posts[p].stage.LookedUp?
    case Put(p) =>
      p < |s.posts| && s.posts[p].stage.Answered?
      && (s.posts[p].stage.out.Some? ==> s.posts[p].stage.out.value in s.sessions)
  }

  /** What a step does to the session of its GET handler. */
  function Handled(x: Session, step: Step): Session
    requires step.Get? ==> x.queue != []
  {
    match step
    case Headers(_) => x.(phase := Announcing)
    case FailHeaders(_) => x.(phase := Leaked)
    case Announce(_) => x.(stream := x.stream + [Endpoint], phase := Waiting)
    case Get(_) => x.(queue := x.queue[1..], phase := Holding(x.queue[0]))
    case TimeOut(_) => x.(phase := PingDue)
    case Write(_) =>
      x.(stream := x.stream + [if x.phase.Holding? then Sent(x.phase.item) else KeptAlive], phase := Waiting)
    case FailWrite(_) => x.(phase := Closing(if x.phase.Holding? then [x.phase.item] else []))
    case Unregister(_) => x.(phase := Gone(if x.phase.Closing? then x.phase.lost else []))
    case _ => x
  }

  function Looked(s: State, post: Post): Post {
    var key := SessionOf(post.path);
    post.(stage := LookedUp(if key in s.table then Some(s.table[key]) else None), registered := key in s.table)
  }

  /** The sessions after a post has finished: one item more on the queue it found, if the message
      is answered at all. */
  function PutInto(s: State, p: nat): map<nat, Session>
    requires Enabled(s, Put(p))
  {
    var post := s.posts[p];
    var reply := McpAnswer(post.message, TOKEN);
    if post.stage.out.None? || reply.None? then s.sessions
    else
      var g := post.stage.out.value;
      var x := s.sessions[g];
      var item := Item(p, reply.value);
      s.sessions[g := x.(queue := x.queue + [item], enqueued := x.enqueued + [item])]
  }

  function Next(s: State, step: Step): State
    requires Enabled(s, step)
  {
    match step
    case Open =>
      State(s.next + 1, s.table[Itoa(s.next) := s.next], s.sessions[s.next := Session([], Opening, [], [])], s.posts)
    case Headers(g) => s.(sessions := s.sessions[g := Handled(s.sessions[g], step)])
    case FailHeaders(g) => s.(sessions := s.sessions[g := Handled(s.sessions[g], step)])
    case Announce(g) => s.(sessions := s.sessions[g := Handled(s.sessions[g], step)])
    case Get(g) => s.(sessions := s.sessions[g := Handled(s.sessions[g], step)])
    case TimeOut(g) => s.(sessions := s.sessions[g := Handled(s.sessions[g], step)])
    case Write(g) => s.(sessions := s.sessions[g := Handled(s.sessions[g], step)])
    case FailWrite(g) => s.(sessions := s.sessions[g := Handled(s.sessions[g], step)])
    case Unregister(g) => s.(sessions := s.sessions[g := Handled(s.sessions[g], step)], table := s.table - {Itoa(g)})
    case Arrive(path, message) => s.(posts := s.posts + [Post(path, message, Arrived, false)])
    case Lookup(p) => s.(posts := s.posts[p := Looked(s, s.posts[p])])
    case Respond(p) =>
      var out := s.posts[p].stage.out;
      s.(posts := s.posts[p := s.posts[p].(stage := Answered(out, if out.Some? then 202 else 404))])
    case Abort(p) => s.(posts := s.posts[p := s.posts[p].(stage := Aborted)])
    case Put(p) =>
      var stage := s.posts[p].stage;
      s.(sessions := PutInto(s, p), posts := s.posts[p := s.posts[p].(stage := Finished(stage.out, stage.status))])
  }

  predicate Legal(s: State, steps: seq<Step>)
    decreases |steps|
  {
    steps == [] || (Enabled(s, steps[0]) && Legal(Next(s, steps[0]), steps[1..]))
  }

  function Final(s: State, steps: seq<Step>): State
    requires Legal(s, steps)
    decreases |steps|
  {
    if steps == [] then s else Final(Next(s, steps[0]), steps[1..])
  }

  // ----- the invariant of a session -----

  /** The replies a stream has carried. */
  function Carried(stream: seq<Chunk>): seq<Item> {
    if stream == [] then []
    else Carried(stream[..|stream| - 1]) + match stream[|stream| - 1] case Sent(i) => [i] case _ => []
  }

  /** The reply a handler has in hand, or had when its write failed. */
  function InHand(phase: Phase): seq<Item> {
    match phase
    case Holding(i) => [i]
    case Closing(lost) => lost
    case Gone(lost) => lost
    case _ => []
  }

  /** The stream opens with the endpoint and names it once. */
  predicate WellAnnounced(x: Session) {
    && (x.phase.Opening? || x.phase.Announcing? || x.phase.Leaked? ==> x.stream == [])
    && (x.phase.Waiting? || x.phase.PingDue? || x.phase.Holding? ==> x.stream != [])
    && (x.stream != [] ==> x.stream[0] == Endpoint && Endpoint !in x.stream[1..])
  }

  /** Nothing enqueued is lost, repeated or reordered on its way. */
  predicate InOrder(x: Session) {
    Carried(x.stream) + InHand(x.phase) + x.queue == x.enqueued
  }

  predicate SessionInv(x: Session) {
    WellAnnounced(x) && InOrder(x)
  }

  lemma CarriedAppend(stream: seq<Chunk>, c: Chunk)
    ensures Carried(stream + [c]) == Carried(stream) + match c case Sent(i) => [i] case _ => []
  {
    assert (stream + [c])[..|stream|] == stream;
  }

  /** The handler is where the step takes it from. */
  predicate Ready(x: Session, step: Step) {
    match step
    case Headers(_) => x.phase.Opening?
    case FailHeaders(_) => x.phase.Opening?
    case Announce(_) => x.phase.Announcing?
    case Get(_) => x.phase.Waiting? && x.queue != []
    case TimeOut(_) => x.phase.Waiting?
    case Write(_) => x.phase.PingDue? || x.phase.Holding?
    case FailWrite(_) => Writing(x.phase)
    case Unregister(_) => x.phase.Closing?
    case _ => true
  }

  lemma HandledKeepsAnnounced(x: Session, step: Step)
    requires WellAnnounced(x) && Ready(x, step)
    ensures WellAnnounced(Handled(x, step))
  {
    if step.Write? {
      var c := if x.phase.Holding? then Sent(x.phase.item) else KeptAlive;
      assert (x.stream + [c])[1..] == x.stream[1..] + [c];
    }
  }

  lemma TakenOff(carried: seq<Item>, queue: seq<Item>)
    requires queue != []
    ensures carried + [queue[0]] + queue[1..] == carried + [] + queue
  {
  }

  lemma WrittenOut(carried: seq<Item>, item: Item, queue: seq<Item>)
    ensures carried + [item] + [] + queue == carried + [item] + queue
  {
  }

  lemma AppendKeepsOrder(x: Session, c: Chunk)
    requires InOrder(x)
    requires match c case Sent(item) => x.phase == Holding(item) case _ => InHand(x.phase) == []
    ensures InOrder(x.(stream := x.stream + [c], phase := Waiting))
  {
    CarriedAppend(x.stream, c);
    if c.Sent? {
      WrittenOut(Carried(x.stream), c.item, x.queue);
    } else {
      assert Carried(x.stream) + [] == Carried(x.stream);
    }
  }

  lemma HandledKeepsOrder(x: Session, step: Step)
    requires InOrder(x) && Ready(x, step)
    ensures InOrder(Handled(x, step))
  {
    match step
    case Announce(_) => AppendKeepsOrder(x, Endpoint);
    case Get(_) => TakenOff(Carried(x.stream), x.queue);
    case Write(_) => AppendKeepsOrder(x, if x.phase.Holding? then Sent(x.phase.item) else KeptAlive);
    case _ =>
  }

  lemma HandledKeepsSessionInv(x: Session, step: Step)
    requires SessionInv(x) && Ready(x, step)
    ensures SessionInv(Handled(x, step))
  {
    HandledKeepsAnnounced(x, step);
    HandledKeepsOrder(x, step);
  }

  // ----- the invariant of the server -----

  /** The table names exactly the sessions that were not unregistered, each under its own number. */
  ghost predicate TableInv(s: State) {
    && s.next >= 1
    && (forall g :: g in s.sessions <==> 1 <= g < s.next)
    && (forall k :: k in s.table ==> k == Itoa(s.table[k]) && s.table[k] in s.sessions)
    && (forall g :: g in s.sessions ==> (s.sessions[g].phase.Gone? <==> Itoa(g) !in s.table))
  }

  /** What a lookup found is the session the path names, and the status says whether it did. */
  predicate PostOk(s: State, post: Post) {
    match post.stage
    case Arrived => true
    case Aborted => true
    case LookedUp(out) => FoundOk(s, post, out)
    case Answered(out, status) => FoundOk(s, post, out) && status == (if post.registered then 202 else 404)
    case Finished(out, status) => FoundOk(s, post, out) && status == (if post.registered then 202 else 404)
  }

  predicate FoundOk(s: State, post: Post, out: Option<nat>) {
    && (out.Some? <==> post.registered)
    && (out.Some? ==> out.value in s.sessions && SessionOf(post.path) == Itoa(out.value))
  }

  ghost predicate PostsInv(s: State) {
    forall p :: 0 <= p < |s.posts| ==> PostOk(s, s.posts[p])
  }

  /** The item is the answer to its post, which named this session, was told 202, and is over. */
  predicate ItemOk(s: State, g: nat, item: Item) {
    && item.post < |s.posts|
    && s.posts[item.post].stage == Finished(Some(g), 202)
    && McpAnswer(s.posts[item.post].message, TOKEN) == Some(item.reply)
  }

  /** Every reply is the answer to one post of its own, and no post has two. */
  ghost predicate RepliesOk(s: State, g: nat, items: seq<Item>) {
    && (forall i :: 0 <= i < |items| ==> ItemOk(s, g, items[i]))
    && (forall i, j :: 0 <= i < j < |items| ==> items[i].post != items[j].post)
  }

  /** So it is on every session. */
  ghost predicate RepliesInv(s: State) {
    forall g :: g in s.sessions ==> RepliesOk(s, g, s.sessions[g].enqueued)
  }

  /** A finished post with a session and an answer has its reply on that session. */
  predicate Delivered(s: State, p: nat)
    requires p < |s.posts|
  {
    var stage, reply := s.posts[p].stage, McpAnswer(s.posts[p].message, TOKEN);
    (stage.Finished? && stage.out.Some? && reply.Some?) ==>
      (stage.out.value in s.sessions && Item(p, reply.value) in s.sessions[stage.out.value].enqueued)
  }

  ghost predicate DeliveredInv(s: State) {
    forall p :: 0 <= p < |s.posts| ==> Delivered(s, p)
  }

  ghost predicate SessionsInv(s: State) {
    forall g :: g in s.sessions ==> SessionInv(s.sessions[g])
  }

  ghost predicate Inv(s: State) {
    TableInv(s) && SessionsInv(s) && PostsInv(s) && RepliesInv(s) && DeliveredInv(s)
  }

  predicate OfSession(step: Step, g: nat) {
    match step
    case Headers(h) => h == g
    case FailHeaders(h) => h == g
    case Announce(h) => h == g
    case Get(h) => h == g
    case TimeOut(h) => h == g
    case Write(h) => h == g
    case FailWrite(h) => h == g
    case Unregister(h) => h == g
    case _ => false
  }

  lemma HandlerNext(s: State, step: Step, g: nat)
    requires Enabled(s, step) && OfSession(step, g)
    ensures g in s.sessions && Ready(s.sessions[g], step)
    ensures Next(s, step).sessions == s.sessions[g := Handled(s.sessions[g], step)]
  {
  }

  /** Neither a GET's step, nor one that makes a session or puts a reply. */
  predicate Aside(step: Step) {
    step.Arrive? || step.Lookup? || step.Respond? || step.Abort?
  }

  lemma AsideNext(s: State, step: Step)
    requires Enabled(s, step) && Aside(step)
    ensures Next(s, step).sessions == s.sessions
  {
  }

  lemma HandlerKeepsSessions(s: State, step: Step, g: nat)
    requires SessionsInv(s) && g in s.sessions && Ready(s.sessions[g], step)
    ensures forall h :: h in s.sessions ==> SessionInv(s.sessions[g := Handled(s.sessions[g], step)][h])
  {
    HandledKeepsSessionInv(s.sessions[g], step);
  }

  lemma PutKeepsSessions(s: State, p: nat)
    requires SessionsInv(s) && Enabled(s, Put(p))
    ensures forall h :: h in PutInto(s, p) ==> SessionInv(PutInto(s, p)[h])
  {
    var post := s.posts[p];
    if post.stage.out.Some? && McpAnswer(post.message, TOKEN).Some? {
      var x := s.sessions[post.stage.out.value];
      var item := Item(p, McpAnswer(post.message, TOKEN).value);
      assert SessionInv(x);
      assert Carried(x.stream) + InHand(x.phase) + (x.queue + [item]) == x.enqueued + [item];
    }
  }

  lemma StepKeepsSessions(s: State, step: Step)
    requires SessionsInv(s) && Enabled(s, step)
    ensures SessionsInv(Next(s, step))
  {
    if step.Open? {
      assert Carried([]) == [];
    } else if step.Put? {
      PutKeepsSessions(s, step.p);
    } else if Aside(step) {
      AsideNext(s, step);
    } else {
      assert OfSession(step, step.g);
      HandlerNext(s, step, step.g);
      HandlerKeepsSessions(s, step, step.g);
    }
  }

  lemma OpenKeepsTable(s: State)
    requires TableInv(s)
    ensures TableInv(Next(s, Open))
  {
    forall g | g in s.sessions
      ensures Itoa(g) != Itoa(s.next)
    {
      if Itoa(g) == Itoa(s.next) {
        ItoaInjective(g, s.next);
      }
    }
  }

  lemma UnregisterKeepsTable(s: State, g: nat)
    requires TableInv(s) && Enabled(s, Unregister(g))
    ensures TableInv(Next(s, Unregister(g)))
  {
    forall h | h in s.sessions && h != g
      ensures Itoa(h) != Itoa(g)
    {
      if Itoa(h) == Itoa(g) {
        ItoaInjective(h, g);
      }
    }
  }

  /** A step that neither opens nor ends a session leaves the sessions and who has gone alone. */
  lemma StepKeepsPhases(s: State, step: Step)
    requires Enabled(s, step) && !step.Open? && !step.Unregister?
    ensures var n := Next(s, step);
            && n.next == s.next && n.table == s.table && n.sessions.Keys == s.sessions.Keys
            && forall g :: g in s.sessions ==> (n.sessions[g].phase.Gone? <==> s.sessions[g].phase.Gone?)
  {
  }

  lemma StepKeepsTable(s: State, step: Step)
    requires TableInv(s) && Enabled(s, step)
    ensures TableInv(Next(s, step))
  {
    match step
    case Open => OpenKeepsTable(s);
    case Unregister(g) => UnregisterKeepsTable(s, g);
    case _ =>
      StepKeepsPhases(s, step);
      assert forall g :: g in Next(s, step).sessions <==> g in s.sessions.Keys;
  }

  lemma SessionsGrow(s: State, step: Step)
    requires Enabled(s, step)
    ensures s.sessions.Keys <= Next(s, step).sessions.Keys
    ensures |s.posts| <= |Next(s, step).posts|
  {
  }

  lemma StepKeepsPosts(s: State, step: Step)
    requires TableInv(s) && PostsInv(s) && Enabled(s, step)
    ensures PostsInv(Next(s, step))
  {
    var n := Next(s, step);
    SessionsGrow(s, step);
    forall p | 0 <= p < |n.posts|
      ensures PostOk(n, n.posts[p])
    {
      if p < |s.posts| {
        assert PostOk(s, s.posts[p]);
      }
    }
  }

  /** A step leaves what is enqueued on a session alone, unless it is the put of a post that
      found the session. */
  lemma EnqueuedStays(s: State, step: Step, g: nat)
    requires Enabled(s, step) && g in s.sessions && g in Next(s, step).sessions
    requires step.Open? ==> g != s.next
    requires step.Put? ==> s.posts[step.p].stage.out != Some(g) || McpAnswer(s.posts[step.p].message, TOKEN).None?
    ensures Next(s, step).sessions[g].enqueued == s.sessions[g].enqueued
  {
  }

  lemma FinishedStays(s: State, step: Step, p: nat)
    requires Enabled(s, step) && p < |s.posts| && s.posts[p].stage.Finished?
    ensures p < |Next(s, step).posts| && Next(s, step).posts[p] == s.posts[p]
  {
  }

  lemma ItemStays(s: State, step: Step, g: nat, item: Item)
    requires Enabled(s, step) && ItemOk(s, g, item)
    ensures ItemOk(Next(s, step), g, item)
  {
    FinishedStays(s, step, item.post);
  }

  lemma RepliesStay(s: State, step: Step, g: nat, items: seq<Item>)
    requires Enabled(s, step) && RepliesOk(s, g, items)
    ensures RepliesOk(Next(s, step), g, items)
  {
    forall i | 0 <= i < |items|
      ensures ItemOk(Next(s, step), g, items[i])
    {
      ItemStays(s, step, g, items[i]);
    }
  }

  lemma PutAddsItsReply(s: State, p: nat, g: nat)
    requires PostsInv(s) && Enabled(s, Put(p)) && s.posts[p].stage.out == Some(g)
    requires McpAnswer(s.posts[p].message, TOKEN).Some?
    requires RepliesOk(s, g, s.sessions[g].enqueued)
    ensures var item := Item(p, McpAnswer(s.posts[p].message, TOKEN).value);
            && Next(s, Put(p)).sessions[g].enqueued == s.sessions[g].enqueued + [item]
            && RepliesOk(Next(s, Put(p)), g, s.sessions[g].enqueued + [item])
  {
    assert PostOk(s, s.posts[p]);
    RepliesStay(s, Put(p), g, s.sessions[g].enqueued);
    var items := s.sessions[g].enqueued;
    forall i | 0 <= i < |items|
      ensures items[i].post != p
    {
      assert ItemOk(s, g, items[i]);
    }
  }

  lemma StepKeepsReplies(s: State, step: Step)
    requires TableInv(s) && PostsInv(s) && RepliesInv(s) && Enabled(s, step)
    ensures RepliesInv(Next(s, step))
  {
    var n := Next(s, step);
    forall g | g in n.sessions
      ensures RepliesOk(n, g, n.sessions[g].enqueued)
    {
      if step.Open? && g == s.next {
      } else {
        assert RepliesOk(s, g, s.sessions[g].enqueued);
        if step.Put? && s.posts[step.p].stage.out == Some(g) && McpAnswer(s.posts[step.p].message, TOKEN).Some? {
          PutAddsItsReply(s, step.p, g);
        } else {
          EnqueuedStays(s, step, g);
          RepliesStay(s, step, g, s.sessions[g].enqueued);
        }
      }
    }
  }

  lemma EnqueuedGrows(s: State, step: Step, g: nat)
    requires TableInv(s) && Enabled(s, step) && g in s.sessions
    ensures g in Next(s, step).sessions && s.sessions[g].enqueued <= Next(s, step).sessions[g].enqueued
  {
  }

  lemma StepKeepsDelivered(s: State, step: Step)
    requires TableInv(s) && PostsInv(s) && DeliveredInv(s) && Enabled(s, step)
    ensures DeliveredInv(Next(s, step))
  {
    var n := Next(s, step);
    forall p | 0 <= p < |n.posts|
      ensures Delivered(n, p)
    {
      if p < |s.posts| && s.posts[p].stage.Finished? {
        FinishedStays(s, step, p);
        assert Delivered(s, p);
        if s.posts[p].stage.out.Some? && McpAnswer(s.posts[p].message, TOKEN).Some? {
          EnqueuedGrows(s, step, s.posts[p].stage.out.value);
        }
      } else if step == Put(p) {
        assert PostOk(s, s.posts[p]);
      }
    }
  }

  lemma StepKeepsInv(s: State, step: Step)
    requires Inv(s) && Enabled(s, step)
    ensures Inv(Next(s, step))
  {
    StepKeepsTable(s, step);
    StepKeepsSessions(s, step);
    StepKeepsPosts(s, step);
    StepKeepsReplies(s, step);
    StepKeepsDelivered(s, step);
  }

  lemma {:induction false} RunKeepsInv(s: State, steps: seq<Step>)
    requires Inv(s) && Legal(s, steps)
    ensures Inv(Final(s, steps))
    decreases |steps|
  {
    if steps != [] {
      StepKeepsInv(s, steps[0]);
      RunKeepsInv(Next(s, steps[0]), steps[1..]);
    }
  }

  // ----- what every run of the server keeps -----

  lemma RunInv(steps: seq<Step>)
    requires Legal(Init, steps)
    ensures Inv(Final(Init, steps))
  {
    RunKeepsInv(Init, steps);
  }

  /** A new session gets an id that no session, open or closed, ever had. */
  lemma IdsAreNeverReused(steps: seq<Step>, g: nat)
    requires Legal(Init, steps)
    requires g in Final(Init, steps).sessions
    ensures g != Final(Init, steps).next && Itoa(g) != Itoa(Final(Init, steps).next)
    ensures Itoa(Final(Init, steps).next) !in Final(Init, steps).table
  {
    RunInv(steps);
    var s := Final(Init, steps);
    if Itoa(g) == Itoa(s.next) {
      ItoaInjective(g, s.next);
    }
    if Itoa(s.next) in s.table {
      ItoaInjective(s.next, s.table[Itoa(s.next)]);
    }
  }

  /** What a session's stream has carried, then the reply its handler has in hand, then its queue
      are the replies enqueued for it, in that order; each is the answer to one post that named
      this session and was told 202. */
  lemma RepliesKeepTheirOrder(steps: seq<Step>, g: nat)
    requires Legal(Init, steps) && g in Final(Init, steps).sessions
    ensures var s := Final(Init, steps);
            var x := s.sessions[g];
            && Carried(x.stream) + InHand(x.phase) + x.queue == x.enqueued
            && RepliesOk(s, g, x.enqueued)
            && (forall i :: 0 <= i < |x.enqueued| ==> SessionOf(s.posts[x.enqueued[i].post].path) == Itoa(g))
  {
    RunInv(steps);
    var s := Final(Init, steps);
    var x := s.sessions[g];
    assert SessionInv(x);
    forall i | 0 <= i < |x.enqueued|
      ensures SessionOf(s.posts[x.enqueued[i].post].path) == Itoa(g)
    {
      assert ItemOk(s, g, x.enqueued[i]);
      assert PostOk(s, s.posts[x.enqueued[i].post]);
    }
  }

  /** A post has a reply on a session exactly if it is over, its lookup found that session, and
      its message asked for an answer: notifications and bodies that are no object enqueue
      nothing, and no reply strays. */
  lemma RepliesAreExactlyTheAnswered(steps: seq<Step>, p: nat, g: nat)
    requires Legal(Init, steps) && p < |Final(Init, steps).posts| && g in Final(Init, steps).sessions
    ensures var s := Final(Init, steps);
            (exists i :: 0 <= i < |s.sessions[g].enqueued| && s.sessions[g].enqueued[i].post == p)
            <==> (s.posts[p].stage == Finished(Some(g), 202) && AsksForReply(s.posts[p].message))
  {
    RunInv(steps);
    var s := Final(Init, steps);
    var items := s.sessions[g].enqueued;
    if i :| 0 <= i < |items| && items[i].post == p {
      assert ItemOk(s, g, items[i]);
    }
    if s.posts[p].stage == Finished(Some(g), 202) && AsksForReply(s.posts[p].message) {
      assert Delivered(s, p);
      var item := Item(p, McpAnswer(s.posts[p].message, TOKEN).value);
      var i :| 0 <= i < |items| && items[i] == item;
      assert items[i].post == p;
    }
  }

  /** The reply is to this message: the server's information, the tools, or the token, and nothing in
      it for any other method. */
  predicate Replies(m: Message, r: Reply) {
    && m.Message? && m.id == Some(r.id)
    && (r.result == Initialized <==> m.verb == "initialize")
    && (r.result == Tools <==> m.verb == "tools/list")
    && (r.result.Content? <==> m.verb == "tools/call")
    && (r.result.Content? ==> r.result.text == TOKEN)
    && (r.result == Empty <==> m.verb !in ["initialize", "tools/list", "tools/call"])
  }

  lemma AnswersReply(m: Message)
    requires McpAnswer(m, TOKEN).Some?
    ensures Replies(m, McpAnswer(m, TOKEN).value)
  {
  }

  /** Whatever is enqueued for a session has the id its post asked with, and the result it asked for. */
  lemma RepliesSayWhatWasAsked(steps: seq<Step>, g: nat, i: nat)
    requires Legal(Init, steps) && g in Final(Init, steps).sessions
    requires i < |Final(Init, steps).sessions[g].enqueued|
    ensures var s := Final(Init, steps);
            var item := s.sessions[g].enqueued[i];
            item.post < |s.posts| && Replies(s.posts[item.post].message, item.reply)
  {
    RunInv(steps);
    var s := Final(Init, steps);
    var item := s.sessions[g].enqueued[i];
    assert RepliesOk(s, g, s.sessions[g].enqueued) && ItemOk(s, g, item);
    AnswersReply(s.posts[item.post].message);
  }

  /** The answer is 202 exactly if the session was registered when it was looked up. */
  lemma StatusTellsTheLookup(before: seq<Step>, p: nat, after: seq<Step>)
    requires Legal(Init, before) && Enabled(Final(Init, before), Lookup(p))
    requires Legal(Next(Final(Init, before), Lookup(p)), after)
    ensures var s := Final(Init, before);
            var end := Final(Next(s, Lookup(p)), after);
            && p < |end.posts|
            && (end.posts[p].stage.Answered? || end.posts[p].stage.Finished? ==>
                  end.posts[p].stage.status == if SessionOf(s.posts[p].path) in s.table then 202 else 404)
  {
    RunInv(before);
    var s := Final(Init, before);
    var n := Next(s, Lookup(p));
    StepKeepsInv(s, Lookup(p));
    RunKeepsInv(n, after);
    LookupIsKept(n, after, p);
    assert PostOk(Final(n, after), Final(n, after).posts[p]);
  }

  lemma {:induction false} LookupIsKept(s: State, steps: seq<Step>, p: nat)
    requires Legal(s, steps) && p < |s.posts| && !s.posts[p].stage.Arrived?
    ensures p < |Final(s, steps).posts| && !Final(s, steps).posts[p].stage.Arrived?
    ensures Final(s, steps).posts[p].registered == s.posts[p].registered
    decreases |steps|
  {
    if steps != [] {
      LookupIsKept(Next(s, steps[0]), steps[1..], p);
    }
  }

  /** The handler has ended: its session was unregistered, or its headers could not be written. */
  predicate Ended(phase: Phase) {
    phase.Gone? || phase.Leaked?
  }

  lemma EndedStep(s: State, step: Step, g: nat)
    requires Enabled(s, step) && g in s.sessions && Ended(s.sessions[g].phase) && g != s.next
    ensures var n := Next(s, step);
            && g in n.sessions && n.sessions[g].stream == s.sessions[g].stream
            && n.sessions[g].phase == s.sessions[g].phase && s.sessions[g].queue <= n.sessions[g].queue
  {
  }

  /** Once a handler has ended its stream carries nothing more: a post that found the session
      before that, or that finds one left in the table, still gets 202, and its reply stays on the
      queue for good. */
  lemma {:induction false} EndedIsFinal(s: State, steps: seq<Step>, g: nat)
    requires TableInv(s) && Legal(s, steps) && g in s.sessions && Ended(s.sessions[g].phase)
    ensures g in Final(s, steps).sessions
    ensures Final(s, steps).sessions[g].stream == s.sessions[g].stream
    ensures Final(s, steps).sessions[g].phase == s.sessions[g].phase
    ensures s.sessions[g].queue <= Final(s, steps).sessions[g].queue
    decreases |steps|
  {
    if steps != [] {
      StepKeepsTable(s, steps[0]);
      EndedStep(s, steps[0], g);
      EndedIsFinal(Next(s, steps[0]), steps[1..], g);
    }
  }

  /** In every run a session is registered exactly if its handler still runs or has failed to write
      its headers, which happens before the try whose finally unregisters. */
  lemma RegisteredWhileRunningOrLeaked(steps: seq<Step>, g: nat)
    requires Legal(Init, steps) && g in Final(Init, steps).sessions
    ensures var s := Final(Init, steps);
            Itoa(g) in s.table <==> !Ended(s.sessions[g].phase) || s.sessions[g].phase.Leaked?
  {
    RunInv(steps);
  }

  /** A session whose headers could not be written stays registered whatever happens after, takes
      replies and carries none of them. */
  lemma LeakedStaysRegistered(before: seq<Step>, g: nat, after: seq<Step>)
    requires Legal(Init, before) && Enabled(Final(Init, before), FailHeaders(g))
    requires Legal(Next(Final(Init, before), FailHeaders(g)), after)
    ensures var end := Final(Next(Final(Init, before), FailHeaders(g)), after);
            && g in end.sessions && Itoa(g) in end.table
            && end.sessions[g].stream == [] && end.sessions[g].queue == end.sessions[g].enqueued
  {
    RunInv(before);
    var s := Final(Init, before);
    var n := Next(s, FailHeaders(g));
    StepKeepsInv(s, FailHeaders(g));
    RunKeepsInv(n, after);
    EndedIsFinal(n, after, g);
    var end := Final(n, after);
    assert SessionInv(end.sessions[g]);
    assert end.sessions[g].stream == [] && InHand(end.sessions[g].phase) == [];
    assert Carried([]) + [] + end.sessions[g].queue == end.sessions[g].queue;
  }

  /** Such a run: the post is told 202, and its reply goes to a queue nobody reads. */
  lemma PostToALeakedSession(message: Message)
    requires AsksForReply(message)
    ensures var path := ENDPOINT + Itoa(1);
            var item := Item(0, McpAnswer(message, TOKEN).value);
            var post := [Arrive(path, message)] + ([Lookup(0)] + ([Respond(0)] + ([Put(0)] + [])));
            var steps := [Open] + ([FailHeaders(1)] + post);
            && Legal(Init, steps)
            && Final(Init, steps) == Leak([item], [Post(path, message, Finished(Some(1), 202), true)])
  {
    var path := ENDPOINT + Itoa(1);
    var s1 := Next(Init, Open);
    var s2 := Next(s1, FailHeaders(1));
    assert s2 == Leak([], []);
    PostRun(s2, path, message);
    var rest := [Arrive(path, message)] + ([Lookup(0)] + ([Respond(0)] + ([Put(0)] + [])));
    OneStep(s1, FailHeaders(1), rest);
    OneStep(Init, Open, [FailHeaders(1)] + rest);
  }

  /** A world with one leaked session and at most one post. */
  function Leak(queue: seq<Item>, posts: seq<Post>): State {
    State(2, map[Itoa(1) := 1], map[1 := Session(queue, Leaked, [], queue)], posts)
  }

  lemma PostIsToldYes(path: string, message: Message)
    requires path == ENDPOINT + Itoa(1)
    ensures Enabled(Leak([], []), Arrive(path, message))
    ensures Next(Leak([], []), Arrive(path, message)) == Leak([], [Post(path, message, Arrived, false)])
    ensures Next(Leak([], [Post(path, message, Arrived, false)]), Lookup(0))
         == Leak([], [Post(path, message, LookedUp(Some(1)), true)])
    ensures Next(Leak([], [Post(path, message, LookedUp(Some(1)), true)]), Respond(0))
         == Leak([], [Post(path, message, Answered(Some(1), 202), true)])
  {
    EndpointNamesItsSession(Itoa(1));
  }

  lemma ReplyIsQueued(path: string, message: Message, item: Item)
    requires AsksForReply(message) && item == Item(0, McpAnswer(message, TOKEN).value)
    ensures Next(Leak([], [Post(path, message, Answered(Some(1), 202), true)]), Put(0))
         == Leak([item], [Post(path, message, Finished(Some(1), 202), true)])
  {
    assert [] + [item] == [item];
  }

  lemma PostRun(s: State, path: string, message: Message)
    requires AsksForReply(message) && path == ENDPOINT + Itoa(1)
    requires s == Leak([], [])
    ensures var steps := [Arrive(path, message)] + ([Lookup(0)] + ([Respond(0)] + ([Put(0)] + [])));
            var item := Item(0, McpAnswer(message, TOKEN).value);
            && Legal(s, steps)
            && Final(s, steps) == Leak([item], [Post(path, message, Finished(Some(1), 202), true)])
  {
    var item := Item(0, McpAnswer(message, TOKEN).value);
    PostIsToldYes(path, message);
    ReplyIsQueued(path, message, item);
    var s3 := Leak([], [Post(path, message, Arrived, false)]);
    var s4 := Leak([], [Post(path, message, LookedUp(Some(1)), true)]);
    var s5 := Leak([], [Post(path, message, Answered(Some(1), 202), true)]);
    OneStep(s5, Put(0), []);
    OneStep(s4, Respond(0), [Put(0)] + []);
    OneStep(s3, Lookup(0), [Respond(0)] + ([Put(0)] + []));
    OneStep(s, Arrive(path, message), [Lookup(0)] + ([Respond(0)] + ([Put(0)] + [])));
  }

  lemma OneStep(s: State, step: Step, steps: seq<Step>)
    requires Enabled(s, step) && Legal(Next(s, step), steps)
    ensures Legal(s, [step] + steps) && Final(s, [step] + steps) == Final(Next(s, step), steps)
  {
    assert ([step] + steps)[1..] == steps;
  }

  // ----- no handler waits for another -----

  predicate OfPost(step: Step, p: nat) {
    match step
    case Lookup(q) => q == p
    case Respond(q) => q == p
    case Abort(q) => q == p
    case Put(q) => q == p
    case _ => false
  }

  ghost predicate GetCanMove(s: State, g: nat) {
    exists step :: OfSession(step, g) && Enabled(s, step)
  }

  ghost predicate PostCanMove(s: State, p: nat) {
    exists step :: OfPost(step, p) && Enabled(s, step)
  }

  lemma GetMovesUntilEnded(s: State, g: nat)
    requires g in s.sessions
    ensures GetCanMove(s, g) <==> !Ended(s.sessions[g].phase)
  {
    var step := match s.sessions[g].phase
      case Opening => Headers(g)
      case Announcing => Announce(g)
      case Waiting => if s.sessions[g].queue != [] then Get(g) else TimeOut(g)
      case PingDue => Write(g)
      case Holding(_) => Write(g)
      case Closing(_) => Unregister(g)
      case Gone(_) => Open
      case Leaked => Open;
    assert !Ended(s.sessions[g].phase) ==> OfSession(step, g) && Enabled(s, step);
  }

  lemma PostMovesUntilOver(s: State, p: nat)
    requires p < |s.posts| && PostOk(s, s.posts[p])
    ensures PostCanMove(s, p) <==> !s.posts[p].stage.Finished? && !s.posts[p].stage.Aborted?
  {
    var step := match s.posts[p].stage
      case Arrived => Lookup(p)
      case LookedUp(_) => Respond(p)
      case Answered(_, _) => Put(p)
      case Finished(_, _) => Open
      case Aborted => Open;
    assert OfPost(step, p) ==> Enabled(s, step);
  }

  /** In every run a handler has a step to take exactly until it has ended: a GET until it
      has unregistered or failed before it could, a post until it is over or given up - also where
      its session went away meanwhile. */
  lemma HandlersNeverBlock(steps: seq<Step>)
    requires Legal(Init, steps)
    ensures var s := Final(Init, steps);
            && (forall g :: g in s.sessions ==> (GetCanMove(s, g) <==> !Ended(s.sessions[g].phase)))
            && (forall p :: 0 <= p < |s.posts| ==>
                  (PostCanMove(s, p) <==> !s.posts[p].stage.Finished? && !s.posts[p].stage.Aborted?))
  {
    RunInv(steps);
    var s := Final(Init, steps);
    forall g | g in s.sessions
      ensures GetCanMove(s, g) <==> !Ended(s.sessions[g].phase)
    {
      GetMovesUntilEnded(s, g);
    }
    forall p | 0 <= p < |s.posts|
      ensures PostCanMove(s, p) <==> !s.posts[p].stage.Finished? && !s.posts[p].stage.Aborted?
    {
      PostMovesUntilOver(s, p);
    }
  }

  /** The steps a post has before it. */
  function StepsLeft(stage: Stage): nat {
    match stage
    case Arrived => 3
    case LookedUp(_) => 2
    case Answered(_, _) => 1
    case Finished(_, _) => 0
    case Aborted => 0
  }

  /** Every step of a post brings it nearer its end, and one that cannot answer is at its end. */
  lemma PostsEnd(s: State, step: Step, p: nat)
    requires Enabled(s, step) && OfPost(step, p)
    ensures p < |s.posts| == |Next(s, step).posts|
    ensures StepsLeft(Next(s, step).posts[p].stage)
         == if step.Abort? then 0 else StepsLeft(s.posts[p].stage) - 1
    ensures StepsLeft(s.posts[p].stage) > 0
  {
  }

  /** Two steps of a handler, one after the other. */
  lemma TwoSteps(s: State, a: Step, b: Step)
    requires Enabled(s, a) && Enabled(Next(s, a), b)
    ensures Legal(s, [a, b]) && Final(s, [a, b]) == Next(Next(s, a), b)
  {
    assert [a, b][1..] == [b] && [b][1..] == [];
    assert Legal(Next(s, a), [b]) && Final(Next(s, a), [b]) == Next(Next(s, a), b);
  }

  /** A client that stays is sent the endpoint at once. */
  lemma StreamsOpenWithTheEndpoint(steps: seq<Step>, g: nat)
    requires Legal(Init, steps) && g in Final(Init, steps).sessions && Final(Init, steps).sessions[g].phase.Opening?
    ensures var s := Final(Init, steps);
            var more := [Headers(g), Announce(g)];
            && Legal(s, more)
            && Final(s, more) == s.(sessions := s.sessions[g := s.sessions[g].(stream := [Endpoint], phase := Waiting)])
  {
    RunInv(steps);
    var s := Final(Init, steps);
    assert SessionInv(s.sessions[g]) && WellAnnounced(s.sessions[g]);
    HeadersThenEndpoint(s, g);
  }

  lemma HeadersThenEndpoint(s: State, g: nat)
    requires g in s.sessions && s.sessions[g].phase.Opening? && s.sessions[g].stream == []
    ensures var more, x := [Headers(g), Announce(g)], s.sessions[g].(stream := [Endpoint], phase := Waiting);
            Legal(s, more) && Final(s, more) == s.(sessions := s.sessions[g := x])
  {
    var x := s.sessions[g];
    var n1 := Next(s, Headers(g));
    assert n1.sessions[g] == x.(phase := Announcing);
    TwoSteps(s, Headers(g), Announce(g));
    assert [] + [Endpoint] == [Endpoint];
    assert Next(n1, Announce(g)).sessions == s.sessions[g := x.(stream := [Endpoint], phase := Waiting)];
  }

  /** And, while it is sent no reply, one keepalive for every second it waits. */
  lemma QuietStreamsAreKeptAlive(s: State, g: nat)
    requires g in s.sessions && s.sessions[g].phase.Waiting? && s.sessions[g].queue == []
    ensures var more, x := [TimeOut(g), Write(g)], s.sessions[g];
            && Legal(s, more)
            && Final(s, more) == s.(sessions := s.sessions[g := x.(stream := x.stream + [KeptAlive])])
  {
    var x := s.sessions[g];
    var n1 := Next(s, TimeOut(g));
    assert n1.sessions[g] == x.(phase := PingDue);
    TwoSteps(s, TimeOut(g), Write(g));
    assert Next(n1, Write(g)).sessions == s.sessions[g := x.(stream := x.stream + [KeptAlive])];
  }

  /** A handler that takes n replies off its queue and writes them. */
  function Draining(g: nat, n: nat): seq<Step> {
    if n == 0 then [] else [Get(g), Write(g)] + Draining(g, n - 1)
  }

  lemma {:induction false} DrainsFrom(s: State, g: nat)
    requires g in s.sessions && s.sessions[g].phase.Waiting? && SessionInv(s.sessions[g])
    ensures Legal(s, Draining(g, |s.sessions[g].queue|))
    ensures var n := Final(s, Draining(g, |s.sessions[g].queue|));
            && g in n.sessions && n.sessions[g].queue == [] && n.sessions[g].enqueued == s.sessions[g].enqueued
            && Carried(n.sessions[g].stream) == n.sessions[g].enqueued
    decreases |s.sessions[g].queue|
  {
    var x := s.sessions[g];
    if x.queue == [] {
      assert Carried(x.stream) + InHand(x.phase) + [] == Carried(x.stream);
    } else {
      var n1 := Next(s, Get(g));
      HandledKeepsSessionInv(x, Get(g));
      var n2 := Next(n1, Write(g));
      HandledKeepsSessionInv(n1.sessions[g], Write(g));
      DrainsFrom(n2, g);
      DrainStep(s, g);
    }
  }

  lemma DrainStep(s: State, g: nat)
    requires g in s.sessions && s.sessions[g].phase.Waiting? && s.sessions[g].queue != []
    requires var n2 := Next(Next(s, Get(g)), Write(g)); Legal(n2, Draining(g, |s.sessions[g].queue| - 1))
    ensures var steps := Draining(g, |s.sessions[g].queue|);
            var n2 := Next(Next(s, Get(g)), Write(g));
            Legal(s, steps) && Final(s, steps) == Final(n2, Draining(g, |s.sessions[g].queue| - 1))
  {
    var rest := Draining(g, |s.sessions[g].queue| - 1);
    var steps := [Get(g), Write(g)] + rest;
    assert steps[1..] == [Write(g)] + rest && ([Write(g)] + rest)[1..] == rest;
    assert Legal(Next(s, Get(g)), [Write(g)] + rest);
  }

  /** From any point of any run at which the handler of a session waits for its queue, and while
      its client stays, taking and writing what is queued puts every reply enqueued for the session
      on its stream. */
  lemma EveryReplyCanReachItsStream(steps: seq<Step>, g: nat)
    requires Legal(Init, steps) && g in Final(Init, steps).sessions && Final(Init, steps).sessions[g].phase.Waiting?
    ensures var s := Final(Init, steps);
            var more := Draining(g, |s.sessions[g].queue|);
            && Legal(s, more) && g in Final(s, more).sessions
            && Carried(Final(s, more).sessions[g].stream) == s.sessions[g].enqueued
  {
    RunInv(steps);
    assert SessionInv(Final(Init, steps).sessions[g]);
    DrainsFrom(Final(Init, steps), g);
  }

  // ----- the endpoint -----

  /** No "se" begins in a. */
  predicate NoStart(a: string) {
    forall i :: 0 <= i < |a| ==> NoStartAt(a, i)
  }

  predicate NoStartAt(a: string, i: nat)
    requires i < |a|
  {
    a[i] == 's' ==> i + 1 < |a| && a[i + 1] != 'e'
  }

  lemma {:induction false} Skip(a: string, s: string)
    requires NoStart(a)
    ensures AfterFirst(a + s, "session=") == AfterFirst(s, "session=")
  {
    if a == "" {
      assert a + s == s;
    } else {
      assert (a + s)[0] == a[0] && (a + s)[1..] == a[1..] + s;
      assert |a| > 1 ==> (a + s)[1] == a[1];
      assert "session="[0] == 's' && "session="[1] == 'e';
      assert NoStartAt(a, 0);
      forall i | 0 <= i < |a[1..]|
        ensures NoStartAt(a[1..], i)
      {
        assert NoStartAt(a, i + 1);
      }
      Skip(a[1..], s);
    }
  }

  /** The mark begins at i, and nowhere before. */
  predicate FirstAt(s: string, mark: string, i: nat) {
    OccursAt(s, mark, i) && forall j: nat :: j < i ==> !OccursAt(s, mark, j)
  }

  lemma OccursBehind(s: string, mark: string, i: nat)
    requires s != ""
    ensures OccursAt(s[1..], mark, i) <==> OccursAt(s, mark, i + 1)
  {
    if i + 1 + |mark| <= |s| {
      assert s[1..][i..i + |mark|] == s[i + 1..i + 1 + |mark|];
    }
  }

  lemma {:induction false} BehindTheFirst(s: string, mark: string)
    requires mark != ""
    ensures AfterFirst(s, mark).None? <==> forall i: nat :: !OccursAt(s, mark, i)
    ensures forall i: nat :: FirstAt(s, mark, i) ==> AfterFirst(s, mark) == Some(s[i + |mark|..])
  {
    if mark <= s {
      assert OccursAt(s, mark, 0);
    } else if s == "" {
      assert !OccursAt(s, mark, 0);
    } else {
      BehindTheFirst(s[1..], mark);
      assert !OccursAt(s, mark, 0);
      forall i: nat
        ensures OccursAt(s[1..], mark, i) <==> OccursAt(s, mark, i + 1)
      {
        OccursBehind(s, mark, i);
      }
      forall i: nat | OccursAt(s, mark, i)
        ensures i > 0 && OccursAt(s[1..], mark, i - 1)
      {
      }
      forall i: nat | FirstAt(s, mark, i)
        ensures AfterFirst(s, mark) == Some(s[i + |mark|..])
      {
        forall j: nat | j < i - 1
          ensures !OccursAt(s[1..], mark, j)
        {
          assert !OccursAt(s, mark, j + 1);
        }
        assert FirstAt(s[1..], mark, i - 1);
        assert s[1..][i - 1 + |mark|..] == s[i + |mark|..];
      }
    }
  }

  /** The session of a path is what stands behind its first mark, whatever follows, and the whole path
      if it has none. */
  lemma SessionOfPath(path: string, i: nat)
    ensures FirstAt(path, "session=", i) ==> SessionOf(path) == path[i + 8..]
    ensures (forall j: nat :: !OccursAt(path, "session=", j)) ==> SessionOf(path) == path
  {
    BehindTheFirst(path, "session=");
  }

  lemma EndpointHasNoStart()
    ensures NoStart("/messages?") && ENDPOINT == "/messages?" + "session="
  {
    assert forall i :: 0 <= i < |"/messages?"| ==> NoStartAt("/messages?", i);
  }

  /** The path a stream announces names its session and nothing else. */
  lemma EndpointNamesItsSession(key: string)
    ensures SessionOf(ENDPOINT + key) == key
  {
    EndpointHasNoStart();
    var s := "session=" + key;
    assert ENDPOINT + key == "/messages?" + s;
    Skip("/messages?", s);
    assert s[|"session="|..] == key;
  }

  /** So a post to the announced path finds that session exactly as long as its handler runs, or for
      good if its headers could not be written. */
  lemma AnnouncedPathFinds(steps: seq<Step>, p: nat, g: nat)
    requires Legal(Init, steps) && Enabled(Final(Init, steps), Lookup(p))
    requires Final(Init, steps).posts[p].path == ENDPOINT + Itoa(g) && g in Final(Init, steps).sessions
    ensures Next(Final(Init, steps), Lookup(p)).posts[p].stage
         == LookedUp(var phase := Final(Init, steps).sessions[g].phase;
                     if !Ended(phase) || phase.Leaked? then Some(g) else None)
  {
    RunInv(steps);
    EndpointNamesItsSession(Itoa(g));
    var s := Final(Init, steps);
    if Itoa(g) in s.table {
      ItoaInjective(g, s.table[Itoa(g)]);
    }
  }

  // ----- the server, changed in place -----

  /** The module's globals and the state of its handlers. Each method is one atomic action. */
  class LegacySSE {
    var next: nat
    var table: map<string, nat>
    var sessions: map<nat, Session>
    var posts: seq<Post>

    function View(): State
      reads this
    {
      State(next, table, sessions, posts)
    }

    constructor ()
      ensures View() == Init
    {
      next, table, sessions, posts := 1, map[], map[], [];
    }

    /** do_GET, under the lock. */
    method OpenSession() returns (g: nat)
      modifies this
      ensures View() == Next(old(View()), Open) && g == old(next)
    {
      g := next;
      next := next + 1;
      sessions := sessions[g := Session([], Opening, [], [])];
      table := table[Itoa(g) := g];
    }

    /** do_GET: the headers are written, or the client has gone - before the try, so that nothing
        unregisters the session. */
    method SendHeaders(g: nat, ok: bool)
      requires Enabled(View(), Headers(g))
      modifies `sessions
      ensures View() == Next(old(View()), if ok then Headers(g) else FailHeaders(g))
    {
      sessions := sessions[g := sessions[g].(phase := if ok then Announcing else Leaked)];
    }

    /** do_GET: the endpoint frame is written, or the client has gone. */
    method WriteEndpoint(g: nat, ok: bool)
      requires Enabled(View(), Announce(g))
      modifies `sessions
      ensures View() == Next(old(View()), if ok then Announce(g) else FailWrite(g))
    {
      var x := sessions[g];
      if ok {
        x := x.(stream := x.stream + [Endpoint], phase := Waiting);
      } else {
        x := x.(phase := Closing([]));
      }
      sessions := sessions[g := x];
    }

    /** do_GET: out.get returns, with a reply or, after a second, without. */
    method GetReply(g: nat)
      requires g in sessions && sessions[g].phase.Waiting?
      modifies `sessions
      ensures View() == Next(old(View()), if old(sessions)[g].queue == [] then TimeOut(g) else Get(g))
    {
      var x := sessions[g];
      if x.queue == [] {
        x := x.(phase := PingDue);
      } else {
        x := x.(queue := x.queue[1..], phase := Holding(x.queue[0]));
      }
      sessions := sessions[g := x];
    }

    /** do_GET: the reply or the keepalive is written, or the client has gone. */
    method WriteChunk(g: nat, ok: bool)
      requires Enabled(View(), Write(g))
      modifies `sessions
      ensures View() == Next(old(View()), if ok then Write(g) else FailWrite(g))
    {
      var x := sessions[g];
      if x.phase.Holding? {
        var item := x.phase.item;
        x := if ok then x.(stream := x.stream + [Sent(item)], phase := Waiting) else x.(phase := Closing([item]));
      } else {
        x := if ok then x.(stream := x.stream + [KeptAlive], phase := Waiting) else x.(phase := Closing([]));
      }
      sessions := sessions[g := x];
    }

    /** do_GET: the finally block, under the lock. */
    method Close(g: nat)
      requires Enabled(View(), Unregister(g))
      modifies `sessions, `table
      ensures View() == Next(old(View()), Unregister(g))
    {
      table := table - {Itoa(g)};
      sessions := sessions[g := sessions[g].(phase := Gone(sessions[g].phase.lost))];
    }

    /** do_POST: path and message are read. */
    method Read(path: string, message: Message) returns (p: nat)
      modifies `posts
      ensures View() == Next(old(View()), Arrive(path, message)) && p == |old(posts)|
    {
      p := |posts|;
      posts := posts + [Post(path, message, Arrived, false)];
    }

    /** do_POST: the lookup, under the lock. */
    method FindSession(p: nat)
      requires Enabled(View(), Lookup(p))
      modifies `posts
      ensures View() == Next(old(View()), Lookup(p))
    {
      var key := SessionOf(posts[p].path);
      var out := if key in table then Some(table[key]) else None;
      posts := posts[p := posts[p].(stage := LookedUp(out), registered := key in table)];
    }

    /** do_POST: the response is written, or the client has gone. */
    method SendResponse(p: nat, ok: bool)
      requires Enabled(View(), Respond(p))
      modifies `posts
      ensures View() == Next(old(View()), if ok then Respond(p) else Abort(p))
    {
      var out := posts[p].stage.out;
      if ok {
        posts := posts[p := posts[p].(stage := Answered(out, if out.Some? then 202 else 404))];
      } else {
        posts := posts[p := posts[p].(stage := Aborted)];
      }
    }

    /** do_POST: the reply, if there is one, goes on the queue the lookup found. */
    method PutReply(p: nat)
      requires Enabled(View(), Put(p))
      modifies `posts, `sessions
      ensures View() == Next(old(View()), Put(p))
    {
      var stage := posts[p].stage;
      var reply := McpAnswer(posts[p].message, TOKEN);
      if stage.out.Some? && reply.Some? {
        var g := stage.out.value;
        var x := sessions[g];
        var item := Item(p, reply.value);
        sessions := sessions[g := x.(queue := x.queue + [item], enqueued := x.enqueued + [item])];
      }
      posts := posts[p := posts[p].(stage := Finished(stage.out, stage.status))];
    }
  }
}
