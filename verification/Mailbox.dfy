/** The one-slot hand-off of reloaded configurations to the supervisor of `coddy serve`
    (offerNewest): any number of offers run at once, each looping over a select that either
    sends into the slot or takes out what waits there, while one reader takes values.

    Offers are numbered in the order their calls begin; a number stands for the configuration
    that call carries. Every atomic channel operation is one step. */
module Mailbox {
  import opened Options

  datatype State = State(
    called: nat,                    // calls made so far, numbered from 0
    pending: set<nat>,              // calls that have not returned
    slot: Option<nat>,              // what the channel buffers
    sent: seq<nat>,                 // offers in the order they sent
    received: seq<nat>,             // what the supervisor took, in order
    displaced: seq<nat>,            // what offers took out, in order
    displacedBy: map<nat, nat>)     // which offer took it out

  datatype Step =
    | Call            // a goroutine enters offerNewest
    | Send(t: nat)    // its select takes the sending arm, and it returns
    | Displace(t: nat) // its select takes the receiving arm, and it loops
    | Receive         // the supervisor takes the waiting configuration

  const Init := State(0, {}, None, [], [], [], map[])

  predicate Enabled(s: State, step: Step) {
    match step
    case Call => true
    case Send(t) => t in s.pending && s.slot.None?
    case Displace(t) => t in s.pending && s.slot.Some?
    case Receive => s.slot.Some?
  }

  function Next(s: State, step: Step): State
    requires Enabled(s, step)
  {
    match step
    case Call => s.(called := s.called + 1, pending := s.pending + {s.called})
    case Send(t) => s.(pending := s.pending - {t}, slot := Some(t), sent := s.sent + [t])
    case Displace(t) =>
      s.(slot := None, displaced := s.displaced + [s.slot.value], displacedBy := s.displacedBy[s.slot.value := t])
    case Receive => s.(slot := None, received := s.received + [s.slot.value])
  }

  /** An interleaving, taken step by step from s. */
  predicate Legal(s: State, steps: seq<Step>)
    decreases |steps|
  {
    steps == [] || (Enabled(s, steps[0]) && Legal(Next(s, steps[0]), steps[1..]))
  }

  function Final(s: State, steps: seq<Step>): State
    requires Legal(s, steps)
    decreases |steps|
  {
    if steps == [] then s else Final(Next(s, steps[0]), steps[1..])
  }

  // ----- the invariant of every interleaving -----

  function Last(xs: seq<nat>): nat
    requires xs != []
  {
    xs[|xs| - 1]
  }

  function Waiting(s: State): multiset<nat> {
    if s.slot.Some? then multiset{s.slot.value} else multiset{}
  }

  function Numbers(n: nat): (r: set<nat>)
    ensures forall t: nat :: t in r <==> t < n
  {
    if n == 0 then {} else Numbers(n - 1) + {n - 1}
  }

  /** Nothing offered is lost or duplicated. */
  ghost predicate Conserved(s: State) {
    && multiset(s.sent) == multiset(s.received) + multiset(s.displaced) + Waiting(s)
    && multiset(Numbers(s.called)) == multiset(s.sent) + multiset(s.pending)
  }

  /** The configuration sent last is in the slot, or the supervisor took it last, or an offer
      that has yet to send took it out. */
  predicate NewestAccounted(s: State) {
    && (s.slot.Some? ==> s.sent != [] && s.slot.value == Last(s.sent))
    && (s.slot.None? && s.sent != [] ==>
          || (s.received != [] && Last(s.received) == Last(s.sent))
          || (Last(s.sent) in s.displacedBy && s.displacedBy[Last(s.sent)] in s.pending))
  }

  /** xs keeps the order of ys and skips some of it. */
  predicate Subsequence(xs: seq<nat>, ys: seq<nat>) {
    || xs == []
    || (ys != [] &&
        (|| (Last(xs) == Last(ys) && Subsequence(xs[..|xs| - 1], ys[..|ys| - 1]))
         || Subsequence(xs, ys[..|ys| - 1])))
  }

  predicate InOrder(s: State) {
    Subsequence(s.received, if s.slot.Some? && s.sent != [] then s.sent[..|s.sent| - 1] else s.sent)
  }

  ghost predicate Inv(s: State) {
    && Conserved(s)
    && NewestAccounted(s)
    && InOrder(s)
  }

  /** Membership and uniqueness, read off the multiset equations. */
  lemma Counts(s: State, t: nat)
    requires Conserved(s)
    ensures t < s.called <==> (t in s.sent || t in s.pending)
    ensures !(t in s.sent && t in s.pending)
    ensures t in s.sent <==> (t in s.received || t in s.displaced || s.slot == Some(t))
    ensures multiset(s.sent)[t] <= 1
    ensures !(t in s.received && t in s.displaced)
  {
    var all := multiset(Numbers(s.called));
    assert all[t] == multiset(s.sent)[t] + multiset(s.pending)[t];
    assert t in Numbers(s.called) <==> all[t] == 1;
    assert multiset(s.sent)[t] == multiset(s.received)[t] + multiset(s.displaced)[t] + Waiting(s)[t];
    assert t in s.sent <==> multiset(s.sent)[t] > 0;
    assert t in s.pending <==> multiset(s.pending)[t] > 0;
    assert t in s.received <==> multiset(s.received)[t] > 0;
    assert t in s.displaced <==> multiset(s.displaced)[t] > 0;
  }

  lemma CallConserves(s: State)
    requires Conserved(s)
    ensures Conserved(Next(s, Call))
  {
    var n := Next(s, Call);
    Counts(s, s.called);
    assert multiset(n.pending) == multiset(s.pending) + multiset{s.called};
    assert multiset(Numbers(n.called)) == multiset(Numbers(s.called)) + multiset{s.called};
  }

  lemma SendConserves(s: State, t: nat)
    requires Conserved(s) && Enabled(s, Send(t))
    ensures Conserved(Next(s, Send(t)))
  {
    var n := Next(s, Send(t));
    assert s.pending == n.pending + {t};
    assert multiset(s.pending) == multiset(n.pending) + multiset{t};
    assert multiset(n.sent) == multiset(s.sent) + multiset{t};
  }

  lemma TakingConserves(s: State, step: Step)
    requires Conserved(s) && Enabled(s, step) && (step.Displace? || step.Receive?)
    ensures Conserved(Next(s, step))
  {
    var n, t := Next(s, step), s.slot.value;
    assert if step.Receive? then multiset(n.received) == multiset(s.received) + multiset{t}
           else multiset(n.displaced) == multiset(s.displaced) + multiset{t};
  }

  lemma StepConserves(s: State, step: Step)
    requires Conserved(s) && Enabled(s, step)
    ensures Conserved(Next(s, step))
  {
    match step
    case Call => CallConserves(s);
    case Send(t) => SendConserves(s, t);
    case Displace(_) => TakingConserves(s, step);
    case Receive => TakingConserves(s, step);
  }

  lemma StepAccounts(s: State, step: Step)
    requires NewestAccounted(s) && Enabled(s, step)
    requires step.Send? && s.sent != [] ==> Last(s.sent) != step.t
    ensures NewestAccounted(Next(s, step))
  {
  }

  lemma StepKeepsOrder(s: State, step: Step)
    requires NewestAccounted(s) && InOrder(s) && Enabled(s, step)
    ensures InOrder(Next(s, step))
  {
    var n := Next(s, step);
    match step
    case Call =>
    case Send(_) =>
      assert n.sent[..|n.sent| - 1] == s.sent;
    case Displace(_) =>
    case Receive =>
      assert n.received[..|n.received| - 1] == s.received;
  }

  lemma StepKeepsInv(s: State, step: Step)
    requires Inv(s) && Enabled(s, step)
    ensures Inv(Next(s, step))
  {
    StepConserves(s, step);
    if step.Send? {
      Counts(s, step.t);
    }
    StepAccounts(s, step);
    StepKeepsOrder(s, step);
  }

  /** Every interleaving of any number of offers with the supervisor keeps the invariant. */
  lemma {:induction false} RunKeepsInv(s: State, steps: seq<Step>)
    requires Inv(s) && Legal(s, steps)
    ensures Inv(Final(s, steps))
    decreases |steps|
  {
    if steps != [] {
      StepKeepsInv(s, steps[0]);
      RunKeepsInv(Next(s, steps[0]), steps[1..]);
    }
  }

  lemma InitInv()
    ensures Inv(Init)
  {
    assert Numbers(0) == {};
  }

  /** Safety over whole runs, spelled out: nothing is lost, the newest is accounted for, and the
      supervisor sees configurations in the order they were sent. */
  lemma NothingIsLost(steps: seq<Step>)
    requires Legal(Init, steps)
    ensures var s := Final(Init, steps);
            && multiset(Numbers(s.called))
               == multiset(s.received) + multiset(s.displaced) + Waiting(s) + multiset(s.pending)
            && NewestAccounted(s)
            && Subsequence(s.received, s.sent)
  {
    InitInv();
    RunKeepsInv(Init, steps);
    var s := Final(Init, steps);
  }

  /** Once every offer has returned, the configuration sent last is the one waiting or the one
      the supervisor took last: it never stays on an older one. */
  lemma QuietMailboxHoldsTheNewest(steps: seq<Step>)
    requires Legal(Init, steps)
    requires Final(Init, steps).pending == {} && Final(Init, steps).sent != []
    ensures var s := Final(Init, steps);
            if s.slot.Some? then s.slot.value == Last(s.sent)
            else s.received != [] && Last(s.received) == Last(s.sent)
  {
    NothingIsLost(steps);
  }

  // ----- progress -----

  /** 2 * pending offers + occupied slot. */
  function Measure(s: State): nat {
    2 * |s.pending| + if s.slot.Some? then 1 else 0
  }

  /** An offer is never blocked: exactly one arm of its select is ready. */
  lemma OneArmIsReady(s: State, t: nat)
    requires t in s.pending
    ensures Enabled(s, Send(t)) <==> !Enabled(s, Displace(t))
  {
  }

  lemma StepSpendsOne(s: State, step: Step)
    requires Enabled(s, step) && !step.Call?
    ensures Measure(Next(s, step)) == Measure(s) - 1
  {
    if step.Send? {
      assert |s.pending - {step.t}| == |s.pending| - 1;
    }
  }

  /** From any state, when no further call is made every interleaving runs the measure down by
      one a step, and it can only stop with every offer returned and the slot drained. So every
      offer returns, after the same total number of steps whatever the schedule. */
  lemma {:induction false} OffersReturn(s: State, steps: seq<Step>)
    requires Legal(s, steps) && Call !in steps
    ensures |steps| == Measure(s) - Measure(Final(s, steps))
    ensures (forall step :: Enabled(Final(s, steps), step) ==> step.Call?)
            <==> Final(s, steps).pending == {} && Final(s, steps).slot.None?
    decreases |steps|
  {
    if steps == [] {
      if s.pending != {} {
        var t :| t in s.pending;
        OneArmIsReady(s, t);
      } else if s.slot.Some? {
        assert Enabled(s, Receive);
      }
    } else {
      StepSpendsOne(s, steps[0]);
      OffersReturn(Next(s, steps[0]), steps[1..]);
    }
  }

  // ----- refinement of an overwriting register -----

  /** The specification: a cell that a write overwrites and a read empties. */
  datatype Register = Register(content: Option<nat>, taken: seq<nat>)

  datatype Op = Write(t: nat) | Read

  predicate OpEnabled(r: Register, op: Op) {
    op.Read? ==> r.content.Some?
  }

  function Apply(r: Register, op: Op): Register
    requires OpEnabled(r, op)
  {
    match op
    case Write(t) => r.(content := Some(t))
    case Read => Register(None, r.taken + [r.content.value])
  }

  predicate OpsLegal(r: Register, ops: seq<Op>)
    decreases |ops|
  {
    ops == [] || (OpEnabled(r, ops[0]) && OpsLegal(Apply(r, ops[0]), ops[1..]))
  }

  function ApplyAll(r: Register, ops: seq<Op>): Register
    requires OpsLegal(r, ops)
    decreases |ops|
  {
    if ops == [] then r else ApplyAll(Apply(r, ops[0]), ops[1..])
  }

  /** What the register holds: the newest configuration sent, unless the supervisor has it.
      A configuration an offer has taken out to replace it is still there. */
  function View(s: State): Register {
    Register(
      if s.sent == [] || (s.received != [] && Last(s.received) == Last(s.sent)) then None else Some(Last(s.sent)),
      s.received)
  }

  /** The register operations of an interleaving: a write where an offer sends, a read where
      the supervisor receives, and nothing where an offer is called or displaces. */
  function OpsOf(steps: seq<Step>): seq<Op> {
    if steps == [] then []
    else
      (match steps[0]
       case Send(t) => [Write(t)]
       case Receive => [Read]
       case Call => []
       case Displace(_) => [])
      + OpsOf(steps[1..])
  }

  lemma StepRefines(s: State, step: Step)
    requires Inv(s) && Enabled(s, step)
    ensures match step
            case Send(t) => View(Next(s, step)) == Apply(View(s), Write(t))
            case Receive => OpEnabled(View(s), Read) && View(Next(s, step)) == Apply(View(s), Read)
            case Call => View(Next(s, step)) == View(s)
            case Displace(_) => View(Next(s, step)) == View(s)
  {
    match step
    case Send(t) =>
      Counts(s, t);
      if s.received != [] {
        Counts(s, Last(s.received));
        assert Last(s.received) in s.received;
      }
    case Receive =>
      var t := s.slot.value;
      if s.received != [] && Last(s.received) == t {
        assert multiset(s.received)[t] >= 1;
        assert multiset(s.sent)[t] >= 2;
        Counts(s, t);
      }
    case Call =>
    case Displace(_) =>
  }

  /** Every interleaving is a history of the overwriting register. */
  lemma {:induction false} RunRefines(s: State, steps: seq<Step>)
    requires Inv(s) && Legal(s, steps)
    ensures OpsLegal(View(s), OpsOf(steps))
    ensures View(Final(s, steps)) == ApplyAll(View(s), OpsOf(steps))
    decreases |steps|
  {
    if steps != [] {
      StepRefines(s, steps[0]);
      StepKeepsInv(s, steps[0]);
      RunRefines(Next(s, steps[0]), steps[1..]);
      var rest := OpsOf(steps[1..]);
      match steps[0]
      case Send(t) => assert OpsOf(steps)[1..] == rest;
      case Receive => assert OpsOf(steps)[1..] == rest;
      case Call => assert OpsOf(steps) == rest;
      case Displace(_) => assert OpsOf(steps) == rest;
    }
  }

  lemma MailboxRefinesRegister(steps: seq<Step>)
    requires Legal(Init, steps)
    ensures OpsLegal(Register(None, []), OpsOf(steps))
    ensures ApplyAll(Register(None, []), OpsOf(steps)) == View(Final(Init, steps))
    ensures ApplyAll(Register(None, []), OpsOf(steps)).taken == Final(Init, steps).received
  {
    InitInv();
    RunRefines(Init, steps);
  }

  // ----- newest sent and newest called -----

  /** Where two calls overlap, the one that sends last wins, not the one called last: here the
      supervisor ends on configuration 0 although 1 was offered after it. */
  lemma OverlappingCallsCanEndOnTheOlder()
    ensures var steps := [Call, Call, Send(1), Displace(0), Send(0), Receive];
            Legal(Init, steps) && Final(Init, steps).received == [0] && Final(Init, steps).pending == {}
  {
  }

  /** What a run of steps does to the calls, and to an offer that was pending. */
  lemma {:induction false} RunGrows(s: State, steps: seq<Step>)
    requires Inv(s) && Legal(s, steps)
    ensures s.called <= Final(s, steps).called
    ensures s.sent <= Final(s, steps).sent
    ensures forall t :: t in s.pending ==> t in Final(s, steps).pending || t in Final(s, steps).sent
    ensures s.called == Final(s, steps).called && s.pending == {} ==> Final(s, steps).sent == s.sent
    decreases |steps|
  {
    if steps != [] {
      var n := Next(s, steps[0]);
      StepKeepsInv(s, steps[0]);
      RunGrows(n, steps[1..]);
      forall t | t in s.pending
        ensures t in Final(s, steps).pending || t in Final(s, steps).sent
      {
        if t !in n.pending {
          assert t in n.sent;
        }
      }
    }
  }

  lemma SentOnce(s: State, i: nat)
    requires Conserved(s) && i + 1 < |s.sent|
    ensures Last(s.sent) != s.sent[i]
  {
    if Last(s.sent) == s.sent[i] {
      LastTwice(s.sent, i, s.sent[i]);
      Counts(s, s.sent[i]);
    }
  }

  /** The two ways the rest of a run can go after offer t has sent in state n. */
  lemma AfterSend(n: State, t: nat, after: seq<Step>)
    requires Inv(n) && n.sent != [] && Last(n.sent) == t
    requires Legal(n, after) && Final(n, after).called == n.called && Final(n, after).pending == {}
    ensures Final(n, after).sent != []
    ensures Last(Final(n, after).sent) == t <==> n.pending == {}
  {
    RunGrows(n, after);
    RunKeepsInv(n, after);
    var end := Final(n, after);
    if n.pending != {} {
      var u :| u in n.pending;
      SentLater(n, end, u);
    }
  }

  lemma SentLater(n: State, end: State, u: nat)
    requires Conserved(n) && Conserved(end) && n.sent != [] && n.sent <= end.sent
    requires u in n.pending && u in end.sent
    ensures Last(end.sent) != Last(n.sent)
  {
    Counts(n, u);
    assert u !in n.sent && end.sent != n.sent;
    SentOnce(end, |n.sent| - 1);
  }

  /** When all offers have returned, the configuration of the last call is the one that was sent
      last - and so, by QuietMailboxHoldsTheNewest, the one the supervisor ends on - exactly if
      no other offer was still running when it sent. Serialised calls always meet this. */
  lemma LastCallWinsIffItSendsAlone(before: seq<Step>, after: seq<Step>)
    requires Legal(Init, before)
    requires var s := Final(Init, before);
             && s.called > 0
             && Enabled(s, Send(s.called - 1))
             && Legal(Next(s, Send(s.called - 1)), after)
             && Final(Next(s, Send(s.called - 1)), after).called == s.called
             && Final(Next(s, Send(s.called - 1)), after).pending == {}
    ensures var s := Final(Init, before);
            var end := Final(Next(s, Send(s.called - 1)), after);
            end.sent != [] && (Last(end.sent) == s.called - 1 <==> s.pending == {s.called - 1})
  {
    InitInv();
    RunKeepsInv(Init, before);
    var s := Final(Init, before);
    var t := s.called - 1;
    StepKeepsInv(s, Send(t));
    var n := Next(s, Send(t));
    AfterSend(n, t, after);
    assert n.pending == s.pending - {t};
  }

  lemma LastTwice(xs: seq<nat>, i: nat, t: nat)
    requires i + 1 < |xs| && xs[i] == t && xs[|xs| - 1] == t
    ensures multiset(xs)[t] >= 2
  {
    var k := |xs| - 1;
    assert xs == xs[..k] + [t];
    assert t in xs[..k] by { assert xs[..k][i] == t; }
    assert multiset(xs) == multiset(xs[..k]) + multiset{t};
  }

  /** Calls that come one at a time. */
  predicate Serialised(s: State, steps: seq<Step>)
    requires Legal(s, steps)
    decreases |steps|
  {
    steps == [] || ((steps[0].Call? ==> s.pending == {}) && Serialised(Next(s, steps[0]), steps[1..]))
  }

  function Upto(n: nat): seq<nat> {
    seq(n, i requires 0 <= i < n => i)
  }

  predicate InCallOrder(s: State) {
    || (s.pending == {} && s.sent == Upto(s.called))
    || (s.called > 0 && s.pending == {s.called - 1} && s.sent == Upto(s.called - 1))
  }

  lemma {:induction false} SerialisedKeepsCallOrder(s: State, steps: seq<Step>)
    requires InCallOrder(s) && Legal(s, steps) && Serialised(s, steps)
    ensures InCallOrder(Final(s, steps))
    decreases |steps|
  {
    if steps != [] {
      var n := Next(s, steps[0]);
      match steps[0] {
        case Send(t) => assert n.pending == {} && n.sent == Upto(s.called);
        case Call => assert n.pending == {s.called};
        case _ =>
      }
      SerialisedKeepsCallOrder(n, steps[1..]);
    }
  }

  /** With serialised calls the supervisor sees an order-preserving subsequence of the offers,
      and once they stop and the slot is drained it is on the last one offered. */
  lemma SerialisedCallsEndOnTheLast(steps: seq<Step>)
    requires Legal(Init, steps) && Serialised(Init, steps)
    ensures var s := Final(Init, steps);
            && Subsequence(s.received, Upto(s.called))
            && (s.called > 0 && s.pending == {} && s.slot.None? ==>
                  s.received != [] && Last(s.received) == s.called - 1)
  {
    SerialisedKeepsCallOrder(Init, steps);
    NothingIsLost(steps);
    var s := Final(Init, steps);
    if s.pending != {} {
      assert Upto(s.called)[..s.called - 1] == s.sent;
    }
  }

  // ----- one offer, with the supervisor reading beside it -----

  /** The channel as a goroutine holding the replacement lock meets it: calls come one at a
      time (internal/serve/liveconfig.go publishes replacements under a mutex), and only the
      supervisor acts between two selects. */
  class Channel {
    var called: nat
    var slot: Option<nat>
    var sent: seq<nat>
    var received: seq<nat>
    var displaced: seq<nat>
    ghost var displacedBy: map<nat, nat>

    /** No call is running. */
    ghost function Snapshot(): State
      reads this
    {
      State(called, {}, slot, sent, received, displaced, displacedBy)
    }

    constructor ()
      ensures Snapshot() == Init
    {
      called, slot, sent, received, displaced, displacedBy := 0, None, [], [], [], map[];
    }

    /** The supervisor's receive. */
    method Take() returns (t: nat)
      requires slot.Some?
      modifies this
      ensures Snapshot() == Next(old(Snapshot()), Receive) && t == old(slot.value)
    {
      t := slot.value;
      slot, received := None, received + [t];
    }

    /** offerNewest. takes says, for each turn of the loop, whether the supervisor receives just
        before this goroutine's select. The call returns with its own configuration in the slot,
        whatever the supervisor does, and what waited there before is received or displaced,
        never both and never neither. steps is the interleaving that took place. */
    method OfferNewest(takes: seq<bool>) returns (ghost steps: seq<Step>)
      modifies this
      ensures Legal(old(Snapshot()), steps) && Snapshot() == Final(old(Snapshot()), steps)
      ensures called == old(called) + 1 && slot == Some(old(called)) && sent == old(sent) + [old(called)]
      ensures Moved(old(slot), old(received), old(displaced), received, displaced)
    {
      var next := called;
      ghost var s := Snapshot();
      called := called + 1;
      steps := [Call];
      assert Legal(Next(s, Call), steps[1..]);
      ghost var waiting := slot;
      var turn := 0;
      while true
        invariant s == old(Snapshot()) && called == next + 1 && sent == old(sent) && next == old(called)
        invariant Legal(s, steps) && Final(s, steps) == Snapshot().(pending := {next})
        invariant if slot.Some? then slot == old(slot) && received == old(received) && displaced == old(displaced)
                  else Moved(old(slot), old(received), old(displaced), received, displaced)
        decreases if slot.Some? then 1 else 0
      {
        if turn < |takes| && takes[turn] && slot.Some? {
          Extend(s, steps, Receive);
          steps := steps + [Receive];
          var _ := Take();
        }
        if slot.None? {
          Extend(s, steps, Send(next));
          steps := steps + [Send(next)];
          slot, sent := Some(next), sent + [next];
          assert {next} - {next} == {};
          return;
        } else {
          Extend(s, steps, Displace(next));
          steps := steps + [Displace(next)];
          displacedBy := displacedBy[slot.value := next];
          slot, displaced := None, displaced + [slot.value];
        }
        turn := turn + 1;
      }
    }
  }

  /** The configuration that waited is received or displaced; if none waited, neither log moves. */
  predicate Moved(waiting: Option<nat>, received: seq<nat>, displaced: seq<nat>,
                  received': seq<nat>, displaced': seq<nat>)
  {
    match waiting
    case None => received' == received && displaced' == displaced
    case Some(v) =>
      || (received' == received + [v] && displaced' == displaced)
      || (received' == received && displaced' == displaced + [v])
  }

  lemma {:induction false} Extend(s: State, steps: seq<Step>, step: Step)
    requires Legal(s, steps) && Enabled(Final(s, steps), step)
    ensures Legal(s, steps + [step]) && Final(s, steps + [step]) == Next(Final(s, steps), step)
    decreases |steps|
  {
    if steps == [] {
      assert [step][1..] == [];
      assert Legal(Next(s, step), []);
    } else {
      Extend(Next(s, steps[0]), steps[1..], step);
      assert (steps + [step])[1..] == steps[1..] + [step];
    }
  }
}
