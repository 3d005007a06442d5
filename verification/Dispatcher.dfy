/** `coddy serve restart` beside the processes it acts on: the dispatchers that record themselves,
    note how their worker fares and remove their record as they leave, and the command that reads
    the record, stops the dispatcher it names and starts another. Each step is one effect on a
    process or on the record file. */
module Dispatcher {
  import opened Options

  /** How a process hands its command line on, and which command lines it accepts. */
  datatype Cli = Cli(hand: seq<string> -> seq<string>, accepts: seq<string> -> bool)

  datatype Stage =
    | Starting                               // not yet recorded
    | Up(working: bool, failed: bool)        // recorded; is a worker up, has one failed
    | Stopping(failed: bool)                 // told to stop, its worker draining
    | Leaving                                // about to remove its record
    | Exited                                 // ended before it recorded itself
    | Cleaned                                // ended, its record removed if that was still its own
    | Killed(recorded: bool)                 // ended without either

  /** A dispatcher; its number is its place among all there ever were. doomed: it was sent SIGKILL,
      which ends it some time after. A process that has ended answers the question whether it runs
      with yes until it is reaped. */
  datatype Proc = Proc(args: seq<string>, stage: Stage, doomed: bool, reaped: bool)

  function NewProc(args: seq<string>): Proc {
    Proc(args, Starting, false, false)
  }

  datatype Record = Record(pid: nat, args: seq<string>, working: bool, failed: bool)

  datatype Outcome = NotRunning | Refused | AlreadyRunning | NotStarted | ExitedEarly | TimedOut | Restarted

  /** Where the restart is. */
  datatype Command =
    | Reading
    | Signalling(rec: Record)
    | Awaiting(rec: Record)
    | Launching(args: seq<string>)
    | Testing(args: seq<string>, pid: nat)
    | Spawning(args: seq<string>)
    | Polling(pid: nat)
    | Checking(pid: nat)
    | Done(outcome: Outcome)

  datatype State = State(procs: seq<Proc>, record: Option<Record>, command: Command)

  datatype Step =
    // a dispatcher
    | Announce(p: nat)               // records itself
    | GiveUp(p: nat)                 // exits before that
    | WorkerUp(p: nat)
    | WorkerDown(p: nat)
    | WorkerDone(p: nat)             // its worker exits cleanly, and so does it
    | Drain(p: nat, noted: bool)     // told to stop, its worker is gone
    | Cleanup(p: nat)
    | Kill(p: nat)                   // ends by SIGKILL, out of memory, or with the machine
    | Tell(p: nat)                   // somebody else sends SIGTERM: `coddy serve stop`, a shell
    | Reap(p: nat)                   // its parent takes note of its end
    // the restart
    | Read
    | Signal
    | Refuse                         // the signal is not permitted
    | SeeThere                       // the process is asked after, and found
    | SeeGone                        // or not
    | Force                          // the grace period is over: SIGKILL is sent
    | Look                           // the record is read once more
    | Test                           // and its process asked after
    | Launch
    | FailLaunch                     // no process can be started
    | Poll
    | Check
    | SeeExit
    | Deadline
    | Again                          // the operator types the command once more

  predicate Alive(stage: Stage) {
    stage.Starting? || stage.Up? || stage.Stopping? || stage.Leaving?
  }

  predicate Recorded(stage: Stage) {
    stage.Up? || stage.Stopping? || stage.Leaving? || stage.Cleaned? || (stage.Killed? && stage.recorded)
  }

  predicate Runs(s: State, p: nat) {
    p < |s.procs| && Alive(s.procs[p].stage)
  }

  /** kill(pid, 0) finds the process. */
  predicate Seen(s: State, p: nat) {
    p < |s.procs| && !s.procs[p].reaped
  }

  predicate Enabled(c: Cli, s: State, step: Step) {
    match step
    case Announce(p) => p < |s.procs| && s.procs[p].stage.Starting? && c.accepts(s.procs[p].args)
    case GiveUp(p) => p < |s.procs| && s.procs[p].stage.Starting?
    case WorkerUp(p) => p < |s.procs| && s.procs[p].stage.Up? && !s.procs[p].stage.working
    case WorkerDown(p) => p < |s.procs| && s.procs[p].stage.Up?
    case WorkerDone(p) => p < |s.procs| && s.procs[p].stage.Up? && s.procs[p].stage.working
    case Drain(p, _) => p < |s.procs| && s.procs[p].stage.Stopping?
    case Cleanup(p) => p < |s.procs| && s.procs[p].stage.Leaving?
    case Kill(p) => Runs(s, p)
    case Tell(p) => p < |s.procs| && s.procs[p].stage.Up?
    case Reap(p) => p < |s.procs| && !Alive(s.procs[p].stage) && !s.procs[p].reaped
    case Read => s.command.Reading?
    case Signal => s.command.Signalling?
    case Refuse => s.command.Signalling?
    case SeeThere => s.command.Awaiting? && Seen(s, s.command.rec.pid)
    case SeeGone => s.command.Awaiting? && !Seen(s, s.command.rec.pid)
    case Force => s.command.Awaiting?
    case Look => s.command.Launching?
    case Test => s.command.Testing?
    case Launch => s.command.Spawning?
    case FailLaunch => s.command.Spawning?
    case Poll => s.command.Polling?
    case Check => s.command.Checking? && Seen(s, s.command.pid)
    case SeeExit => s.command.Checking? && !Seen(s, s.command.pid)
    case Deadline => s.command.Polling?
    case Again => s.command.Done?
  }

  function SetStage(procs: seq<Proc>, p: nat, stage: Stage): seq<Proc>
    requires p < |procs|
  {
    procs[p := procs[p].(stage := stage)]
  }

  /** SIGKILL is sent. */
  function Doom(procs: seq<Proc>, p: nat): seq<Proc>
    requires p < |procs|
  {
    procs[p := procs[p].(doomed := true)]
  }

  /** Process p writes its record, over whatever is there. */
  function Write(c: Cli, s: State, p: nat, working: bool, failed: bool): Option<Record>
    requires p < |s.procs|
  {
    Some(Record(p, c.hand(s.procs[p].args), working, failed))
  }

  function Signalled(stage: Stage): Stage {
    if stage.Up? then Stopping(stage.failed) else stage
  }

  function Dead(stage: Stage): Stage {
    if Alive(stage) then Killed(Recorded(stage)) else stage
  }

  function Next(c: Cli, s: State, step: Step): State
    requires Enabled(c, s, step)
  {
    match step
    case Announce(p) => s.(procs := SetStage(s.procs, p, Up(false, false)), record := Write(c, s, p, false, false))
    case GiveUp(p) => s.(procs := SetStage(s.procs, p, Exited))
    case WorkerUp(p) =>
      var failed := s.procs[p].stage.failed;
      s.(procs := SetStage(s.procs, p, Up(true, failed)), record := Write(c, s, p, true, failed))
    case WorkerDown(p) => s.(procs := SetStage(s.procs, p, Up(false, true)), record := Write(c, s, p, false, true))
    case WorkerDone(p) =>
      s.(procs := SetStage(s.procs, p, Leaving), record := Write(c, s, p, false, s.procs[p].stage.failed))
    case Drain(p, noted) =>
      s.(procs := SetStage(s.procs, p, Leaving),
         record := if noted then Write(c, s, p, false, s.procs[p].stage.failed) else s.record)
    case Cleanup(p) =>
      s.(procs := SetStage(s.procs, p, Cleaned),
         record := if s.record.Some? && s.record.value.pid == p then None else s.record)
    case Kill(p) => s.(procs := SetStage(s.procs, p, Dead(s.procs[p].stage)))
    case Tell(p) => s.(procs := SetStage(s.procs, p, Signalled(s.procs[p].stage)))
    case Reap(p) => s.(procs := s.procs[p := s.procs[p].(reaped := true)])
    case Read =>
      s.(command := if s.record.None? then Done(NotRunning)
                    else if Seen(s, s.record.value.pid) then Signalling(s.record.value)
                    else Launching(s.record.value.args))
    case Signal =>
      var rec := s.command.rec;
      if !Seen(s, rec.pid) then s.(command := Launching(rec.args))
      else s.(procs := SetStage(s.procs, rec.pid, Signalled(s.procs[rec.pid].stage)), command := Awaiting(rec))
    case Refuse => s.(command := Done(Refused))
    case SeeThere => s
    case SeeGone => s.(command := Launching(s.command.rec.args))
    case Force =>
      var rec := s.command.rec;
      s.(procs := if Seen(s, rec.pid) then Doom(s.procs, rec.pid) else s.procs, command := Launching(rec.args))
    case Look =>
      s.(command := if s.record.Some? then Testing(s.command.args, s.record.value.pid) else Spawning(s.command.args))
    case Test => s.(command := if Seen(s, s.command.pid) then Done(AlreadyRunning) else Spawning(s.command.args))
    case Launch => s.(procs := s.procs + [NewProc(s.command.args)], command := Polling(|s.procs|))
    case FailLaunch => s.(command := Done(NotStarted))
    case Poll => s.(command := if CameUp(s, s.command.pid) then Done(Restarted) else Checking(s.command.pid))
    case Check => s.(command := Polling(s.command.pid))
    case SeeExit => s.(command := Done(ExitedEarly))
    case Deadline => s.(command := Done(TimedOut))
    case Again => s.(command := Reading)
  }

  /** The record is that of the new dispatcher, and its worker has come up or failed. */
  predicate CameUp(s: State, p: nat) {
    s.record.Some? && s.record.value.pid == p && (s.record.value.working || s.record.value.failed)
  }

  predicate Legal(c: Cli, s: State, steps: seq<Step>)
    decreases |steps|
  {
    steps == [] || (Enabled(c, s, steps[0]) && Legal(c, Next(c, s, steps[0]), steps[1..]))
  }

  function Final(c: Cli, s: State, steps: seq<Step>): State
    requires Legal(c, s, steps)
    decreases |steps|
  {
    if steps == [] then s else Final(c, Next(c, s, steps[0]), steps[1..])
  }

  // ----- what a record tells -----

  /** The record of a dispatcher that is up tells whether its worker is, and whether one has failed. */
  predicate RecordTells(s: State) {
    s.record.Some? ==>
      var rec := s.record.value;
      && rec.pid < |s.procs|
      && (s.procs[rec.pid].stage.Up? ==> s.procs[rec.pid].stage == Up(rec.working, rec.failed))
  }

  /** In every run it does. */
  lemma {:induction false} RecordsTell(c: Cli, s: State, steps: seq<Step>)
    requires RecordTells(s) && Legal(c, s, steps)
    ensures RecordTells(Final(c, s, steps))
    decreases |steps|
  {
    if steps != [] {
      assert RecordTells(Next(c, s, steps[0]));
      RecordsTell(c, Next(c, s, steps[0]), steps[1..]);
    }
  }

  /** How a new dispatcher comes up: it records itself with the options it hands on, and the command
      has its answer at the first poll after the worker is up or has failed, and not before. */
  lemma HowADispatcherComesUp(c: Cli, s: State, p: nat, worker: Step)
    requires p < |s.procs| && s.procs[p].stage.Starting? && c.accepts(s.procs[p].args)
    requires s.command == Polling(p) && worker in {WorkerUp(p), WorkerDown(p)}
    ensures Enabled(c, s, Announce(p)) && Enabled(c, Next(c, s, Announce(p)), worker)
    ensures var announced := Next(c, s, Announce(p));
            var up := Next(c, announced, worker);
            && announced.record == Some(Record(p, c.hand(s.procs[p].args), false, false))
            && Next(c, announced, Poll).command == Checking(p)
            && up.record == Some(Record(p, c.hand(s.procs[p].args), worker.WorkerUp?, worker.WorkerDown?))
            && up.procs[p].stage == Up(worker.WorkerUp?, worker.WorkerDown?)
            && Next(c, up, Poll).command == Done(Restarted)
  {
  }

  /** And how it leaves when it is told to: its worker drains, and its record goes with it. */
  lemma HowADispatcherLeaves(c: Cli, s: State, p: nat, noted: bool)
    requires p < |s.procs| && s.procs[p].stage.Up? && s.record.Some? && s.record.value.pid == p
    ensures Leads(c, s, [Tell(p), Drain(p, noted), Cleanup(p)],
                  State(s.procs[p := s.procs[p].(stage := Cleaned)], None, s.command))
  {
    var s1 := Next(c, s, Tell(p));
    var s2 := Next(c, s1, Drain(p, noted));
    var s3 := Next(c, s2, Cleanup(p));
    Two(c, s, Tell(p), s1, Drain(p, noted), s2);
    One(c, s2, Cleanup(p), s3);
    Joined(c, s, [Tell(p), Drain(p, noted)], s2, [Cleanup(p)], s3);
    assert [Tell(p), Drain(p, noted)] + [Cleanup(p)] == [Tell(p), Drain(p, noted), Cleanup(p)];
    assert s3.procs == s.procs[p := s.procs[p].(stage := Cleaned)];
  }

  // ----- the options -----

  /** Whatever can still start or be read has the options `args`. */
  predicate OptionsAre(c: Cli, s: State, args: seq<string>) {
    && c.hand(args) == args
    && (forall p :: 0 <= p < |s.procs| ==> ProcHasOptions(c, s.procs[p], args))
    && (s.record.Some? ==> s.record.value.args == args)
    && (s.command.Signalling? || s.command.Awaiting? ==> s.command.rec.args == args)
    && (s.command.Launching? || s.command.Testing? || s.command.Spawning? ==> s.command.args == args)
  }

  predicate ProcHasOptions(c: Cli, proc: Proc, args: seq<string>) {
    Alive(proc.stage) ==> c.hand(proc.args) == args
  }

  lemma StepKeepsOptions(c: Cli, s: State, step: Step, args: seq<string>)
    requires OptionsAre(c, s, args) && Enabled(c, s, step)
    ensures OptionsAre(c, Next(c, s, step), args)
  {
    var n := Next(c, s, step);
    forall p | 0 <= p < |n.procs|
      ensures ProcHasOptions(c, n.procs[p], args)
    {
      if p < |s.procs| {
        assert ProcHasOptions(c, s.procs[p], args);
      }
    }
    assert forall p :: 0 <= p < |s.procs| && Alive(s.procs[p].stage) ==> ProcHasOptions(c, s.procs[p], args);
  }

  /** Over any number of restarts, whatever fails, is killed or runs late: every record that is ever
      found, and every dispatcher that is ever started, has the options of the first. */
  lemma {:induction false} RestartsKeepTheOptions(c: Cli, s: State, steps: seq<Step>, args: seq<string>)
    requires OptionsAre(c, s, args) && Legal(c, s, steps)
    ensures OptionsAre(c, Final(c, s, steps), args)
    decreases |steps|
  {
    if steps != [] {
      StepKeepsOptions(c, s, steps[0], args);
      RestartsKeepTheOptions(c, Next(c, s, steps[0]), steps[1..], args);
    }
  }

  /** A dispatcher that has been started with args, and is yet to record itself. */
  function FirstStart(args: seq<string>): State {
    State([NewProc(args)], None, Polling(0))
  }

  lemma FirstStartIsALaunch(c: Cli, args: seq<string>)
    ensures var s := State([], None, Spawning(args)); Enabled(c, s, Launch) && Next(c, s, Launch) == FirstStart(args)
  {
    assert [] + [NewProc(args)] == [NewProc(args)];
  }

  lemma RestartsFromTheFirstStart(c: Cli, args: seq<string>, steps: seq<Step>)
    requires c.hand(c.hand(args)) == c.hand(args) && Legal(c, FirstStart(args), steps)
    ensures var s := Final(c, FirstStart(args), steps);
            && (s.record.Some? ==> s.record.value.args == c.hand(args))
            && (forall p: nat :: Runs(s, p) ==> c.hand(s.procs[p].args) == c.hand(args))
  {
    RestartsKeepTheOptions(c, FirstStart(args), steps, c.hand(args));
    var s := Final(c, FirstStart(args), steps);
    forall p: nat | Runs(s, p)
      ensures c.hand(s.procs[p].args) == c.hand(args)
    {
      assert ProcHasOptions(c, s.procs[p], c.hand(args));
    }
  }

  // ----- one restart -----

  /** The last dispatcher to have recorded itself. */
  function Writer(procs: seq<Proc>): (w: Option<nat>)
    ensures w.Some? ==> w.value < |procs| && Recorded(procs[w.value].stage)
  {
    if procs == [] then None
    else if Recorded(procs[|procs| - 1].stage) then Some(|procs| - 1)
    else Writer(procs[..|procs| - 1])
  }

  /** The record is that of the last dispatcher to have written one, and is there exactly if that
      one has not cleaned up. */
  predicate RecordInv(s: State) {
    match Writer(s.procs)
    case None => s.record.None?
    case Some(w) =>
      && (s.record.Some? <==> !s.procs[w].stage.Cleaned?)
      && (s.record.Some? ==> s.record.value.pid == w)
  }

  /** Only the last dispatcher can be running, and none is reaped before it has ended. */
  predicate Sole(s: State) {
    && (forall p :: 0 <= p < |s.procs| - 1 ==> !Alive(s.procs[p].stage))
    && (s.procs != [] && s.procs[|s.procs| - 1].reaped ==> !Alive(s.procs[|s.procs| - 1].stage))
  }

  predicate LastRuns(s: State) {
    s.procs != [] && Alive(s.procs[|s.procs| - 1].stage)
  }

  predicate LastStarts(s: State) {
    s.procs != [] && s.procs[|s.procs| - 1].stage.Starting?
  }

  /** If the process is still seen, it was sent SIGKILL. */
  predicate SeenIsDoomed(s: State, p: nat) {
    Seen(s, p) ==> s.procs[p].doomed
  }

  /** Where the restart stands, and what can be running then; before tells how many dispatchers
      there were, and prior is the one that was recorded, when it began. */
  predicate CommandInv(s: State, before: nat, prior: nat) {
    match s.command
    case Reading => |s.procs| == before && !LastStarts(s)
    case Signalling(rec) => |s.procs| == before && !LastStarts(s) && rec.pid == prior
    case Awaiting(rec) => |s.procs| == before && !LastStarts(s) && rec.pid == prior
    case Launching(_) => |s.procs| == before && !LastStarts(s) && SeenIsDoomed(s, prior)
    case Testing(_, p) => |s.procs| == before && !LastStarts(s) && SeenIsDoomed(s, prior) && p == prior
    case Spawning(_) => |s.procs| == before && !LastRuns(s)
    case Polling(p) => |s.procs| == before + 1 && p == before
    case Checking(p) => |s.procs| == before + 1 && p == before
    case Done(o) =>
      match o
      case NotRunning => |s.procs| == before && !LastRuns(s)
      case NotStarted => |s.procs| == before && !LastRuns(s)
      case Refused => |s.procs| == before && !LastStarts(s)
      case AlreadyRunning =>
        |s.procs| == before && !LastStarts(s) && prior < |s.procs| && s.procs[prior].doomed
      case ExitedEarly => |s.procs| == before + 1 && !LastRuns(s)
      case TimedOut => |s.procs| == before + 1
      case Restarted => |s.procs| == before + 1
  }

  /** Until a new dispatcher has recorded itself, the prior one is the last that has. */
  predicate WriterInv(s: State, before: nat, prior: nat) {
    && prior < before <= |s.procs| <= before + 1
    && Writer(s.procs) == if |s.procs| > before && Recorded(s.procs[before].stage) then Some(before) else Some(prior)
  }

  predicate RestartInv(s: State, before: nat, prior: nat) {
    RecordInv(s) && Sole(s) && CommandInv(s, before, prior) && WriterInv(s, before, prior)
  }

  lemma WriterOfChanged(procs: seq<Proc>, stage: Stage)
    requires procs != []
    ensures var last := |procs| - 1;
            Writer(SetStage(procs, last, stage)) == if Recorded(stage) then Some(last) else Writer(procs[..last])
  {
    var last := |procs| - 1;
    assert SetStage(procs, last, stage)[..last] == procs[..last];
  }

  lemma WriterOfStarted(procs: seq<Proc>, args: seq<string>)
    ensures Writer(procs + [NewProc(args)]) == Writer(procs)
  {
    assert (procs + [NewProc(args)])[..|procs|] == procs;
  }

  lemma {:induction false} WriterOfStages(a: seq<Proc>, b: seq<Proc>)
    requires |a| == |b| && forall i :: 0 <= i < |a| ==> a[i].stage == b[i].stage
    ensures Writer(a) == Writer(b)
  {
    if a != [] {
      WriterOfStages(a[..|a| - 1], b[..|b| - 1]);
    }
  }

  /** A dispatcher that runs is the last one; once it is recorded, the record is its own. */
  lemma RunningIsLast(s: State, p: nat)
    requires RecordInv(s) && Sole(s) && Runs(s, p)
    ensures p == |s.procs| - 1
    ensures Recorded(s.procs[p].stage) ==> s.record.Some? && s.record.value.pid == p
  {
  }

  /** The stage a dispatcher's own step, or a signal, takes it to. */
  predicate StageChanges(stage: Stage, stage': Stage) {
    && Alive(stage) && !stage'.Starting?
    && (Recorded(stage) ==> Recorded(stage'))
  }

  /** What the change leaves of the record. */
  predicate RecordFollows(s: State, n: State, p: nat, stage: Stage) {
    if Recorded(stage)
    then (n.record.Some? <==> !stage.Cleaned?) && (n.record.Some? ==> n.record.value.pid == p)
    else n.record == s.record
  }

  lemma ChangeKeepsInv(s: State, n: State, p: nat, stage: Stage, before: nat, prior: nat)
    requires RestartInv(s, before, prior) && Runs(s, p)
    requires n.procs == SetStage(s.procs, p, stage) && n.command == s.command
    requires StageChanges(s.procs[p].stage, stage) && RecordFollows(s, n, p, stage)
    ensures RestartInv(n, before, prior)
  {
    RunningIsLast(s, p);
    WriterOfChanged(s.procs, stage);
    var last := |s.procs| - 1;
    if !Recorded(stage) {
      assert Writer(n.procs) == Writer(s.procs[..last]) == Writer(s.procs);
    }
  }

  predicate OfDispatcher(step: Step, p: nat) {
    match step
    case Announce(q) => q == p
    case GiveUp(q) => q == p
    case WorkerUp(q) => q == p
    case WorkerDown(q) => q == p
    case WorkerDone(q) => q == p
    case Drain(q, _) => q == p
    case Cleanup(q) => q == p
    case Kill(q) => q == p
    case Tell(q) => q == p
    case _ => false
  }

  /** A process is reaped, or sent SIGKILL: no stage changes. */
  lemma MarkKeepsInv(s: State, n: State, p: nat, before: nat, prior: nat)
    requires RestartInv(s, before, prior) && p < |s.procs|
    requires n.record == s.record && n.command == s.command
    requires || n.procs == Doom(s.procs, p)
             || (n.procs == s.procs[p := s.procs[p].(reaped := true)] && !Alive(s.procs[p].stage))
    ensures RestartInv(n, before, prior)
  {
    WriterOfStages(s.procs, n.procs);
  }

  lemma DispatcherStepKeepsInv(c: Cli, s: State, step: Step, p: nat, before: nat, prior: nat)
    requires RestartInv(s, before, prior) && Enabled(c, s, step) && OfDispatcher(step, p)
    ensures RestartInv(Next(c, s, step), before, prior)
  {
    var n := Next(c, s, step);
    RunningIsLast(s, p);
    ChangeKeepsInv(s, n, p, n.procs[p].stage, before, prior);
  }

  /** A step of the command that touches no process. */
  predicate Looks(step: Step) {
    step.Read? || step.Refuse? || step.SeeThere? || step.SeeGone? || step.Look? || step.Test? || step.FailLaunch?
    || step.Poll? || step.Check? || step.SeeExit? || step.Deadline?
  }

  /** A dispatcher that is recorded and runs has its record there. */
  lemma RecordOfRunning(s: State, before: nat, prior: nat)
    requires RestartInv(s, before, prior) && |s.procs| == before && LastRuns(s) && !LastStarts(s)
    ensures prior == before - 1 && s.record.Some? && s.record.value.pid == prior && Seen(s, prior)
  {
  }

  lemma LookKeepsInv(c: Cli, s: State, step: Step, before: nat, prior: nat)
    requires RestartInv(s, before, prior) && Enabled(c, s, step) && Looks(step)
    ensures RestartInv(Next(c, s, step), before, prior)
  {
    if step.Read? || step.Look? || step.Test? {
      LookAtOldKeepsInv(c, s, step, before, prior);
    }
  }

  lemma LookAtOldKeepsInv(c: Cli, s: State, step: Step, before: nat, prior: nat)
    requires RestartInv(s, before, prior) && Enabled(c, s, step) && (step.Read? || step.Look? || step.Test?)
    ensures RestartInv(Next(c, s, step), before, prior)
  {
    if LastRuns(s) {
      RecordOfRunning(s, before, prior);
    }
    assert s.record.Some? ==> s.record.value.pid == prior;
  }

  lemma StopStepKeepsInv(c: Cli, s: State, step: Step, before: nat, prior: nat)
    requires RestartInv(s, before, prior) && Enabled(c, s, step) && (step.Signal? || step.Force?)
    ensures RestartInv(Next(c, s, step), before, prior)
  {
    var n := Next(c, s, step);
    if step.Signal? && Runs(s, prior) {
      ChangeKeepsInv(s, n.(command := s.command), prior, n.procs[prior].stage, before, prior);
    } else if step.Signal? && Seen(s, prior) {
      assert n.procs == s.procs;
    } else if step.Force? && Seen(s, prior) {
      MarkKeepsInv(s, n.(command := s.command), prior, before, prior);
    }
  }

  lemma LaunchKeepsInv(c: Cli, s: State, before: nat, prior: nat)
    requires RestartInv(s, before, prior) && Enabled(c, s, Launch)
    ensures RestartInv(Next(c, s, Launch), before, prior)
  {
    WriterOfStarted(s.procs, s.command.args);
  }

  lemma StepKeepsRestart(c: Cli, s: State, step: Step, before: nat, prior: nat)
    requires RestartInv(s, before, prior) && Enabled(c, s, step) && !step.Again?
    ensures RestartInv(Next(c, s, step), before, prior)
  {
    if step.Signal? || step.Force? {
      StopStepKeepsInv(c, s, step, before, prior);
    } else if step.Launch? {
      LaunchKeepsInv(c, s, before, prior);
    } else if Looks(step) {
      LookKeepsInv(c, s, step, before, prior);
    } else if step.Reap? {
      MarkKeepsInv(s, Next(c, s, step), step.p, before, prior);
    } else {
      DispatcherStepKeepsInv(c, s, step, step.p, before, prior);
    }
  }

  lemma {:induction false} RestartKeepsInv(c: Cli, s: State, steps: seq<Step>, before: nat, prior: nat)
    requires RestartInv(s, before, prior) && Legal(c, s, steps) && Again !in steps
    ensures RestartInv(Final(c, s, steps), before, prior)
    decreases |steps|
  {
    if steps != [] {
      StepKeepsRestart(c, s, steps[0], before, prior);
      RestartKeepsInv(c, Next(c, s, steps[0]), steps[1..], before, prior);
    }
  }

  /** A restart is typed where a dispatcher is recorded and none is still on its way to be. */
  predicate Quiet(s: State) {
    s.command.Reading? && RecordInv(s) && Sole(s) && !LastStarts(s) && s.record.Some?
  }

  /** The dispatcher that speaks for the home after a restart: the new one once it has recorded
      itself, else the one that was recorded before. */
  function Speaker(s: State, e: State): nat
    requires s.record.Some?
  {
    SpeakerOf(e, |s.procs|, s.record.value.pid)
  }

  function SpeakerOf(e: State, before: nat, prior: nat): nat {
    if |e.procs| > before && Recorded(e.procs[before].stage) then before else prior
  }

  lemma RecordLeft(e: State, before: nat, prior: nat)
    requires RestartInv(e, before, prior)
    ensures var w := SpeakerOf(e, before, prior);
            && w < |e.procs| && Recorded(e.procs[w].stage)
            && (e.record.Some? <==> !e.procs[w].stage.Cleaned?)
            && (e.record.Some? ==> e.record.value.pid == w)
  {
  }

  lemma RunningLeft(e: State, before: nat, prior: nat)
    requires RestartInv(e, before, prior) && e.command.Done?
    ensures var o := e.command.outcome;
            (exists p: nat :: Runs(e, p)) <==>
              ((o.Refused? || o.AlreadyRunning?) && Runs(e, prior))
              || ((o.TimedOut? || o.Restarted?) && Runs(e, before))
  {
    if p: nat :| Runs(e, p) {
      RunningIsLast(e, p);
    }
  }

  /** What a restart leaves, in every run and however long after: a record exactly if the last
      dispatcher to have recorded itself has not removed it - it runs, or was killed; and a running
      dispatcher exactly if a new one was started that has not ended, be the restart said to have
      timed out, or if none was and the old one has not ended, for it could not be signalled, or was
      sent SIGKILL and still found. */
  lemma WhatARestartLeaves(c: Cli, s: State, steps: seq<Step>)
    requires Quiet(s) && Legal(c, s, steps) && Again !in steps && Final(c, s, steps).command.Done?
    ensures var e := Final(c, s, steps);
            var prior, next, w, o := s.record.value.pid, |s.procs|, Speaker(s, e), e.command.outcome;
            && prior < next && w < |e.procs|
            && (|e.procs| > next <==> o.ExitedEarly? || o.TimedOut? || o.Restarted?)
            && (o.AlreadyRunning? ==> e.procs[prior].doomed)
            && (e.record.Some? <==> !e.procs[w].stage.Cleaned?)
            && (e.record.Some? ==> e.record.value.pid == w)
            && ((exists p: nat :: Runs(e, p)) <==>
                  ((o.Refused? || o.AlreadyRunning?) && Runs(e, prior))
                  || ((o.TimedOut? || o.Restarted?) && Runs(e, next)))
  {
    var prior, before := s.record.value.pid, |s.procs|;
    RestartKeepsInv(c, s, steps, before, prior);
    var e := Final(c, s, steps);
    RecordLeft(e, before, prior);
    RunningLeft(e, before, prior);
  }

  /** At the last look before a new dispatcher is started, the restart ends for finding one already
      running exactly if the old one was sent SIGKILL and is still to be found. */
  lemma AlreadyRunningIsTheKilledOne(c: Cli, s: State, steps: seq<Step>)
    requires Quiet(s) && Legal(c, s, steps) && Again !in steps && Final(c, s, steps).command.Testing?
    ensures var e := Final(c, s, steps);
            var prior := s.record.value.pid;
            && prior < |e.procs| == |s.procs|
            && (Next(c, e, Test).command == Done(AlreadyRunning) <==> e.procs[prior].doomed && Seen(e, prior))
  {
    RestartKeepsInv(c, s, steps, |s.procs|, s.record.value.pid);
  }

  /** Where nothing is to be found any more, the record is left exactly if the last to have recorded
      itself was killed; and what is left has the options of the record the restart began with, so
      it can be typed again. */
  lemma AFailedRestartCanBeRepeatedIffKilled(c: Cli, s: State, steps: seq<Step>)
    requires Quiet(s) && Legal(c, s, steps) && Again !in steps && Final(c, s, steps).command.Done?
    requires OptionsAre(c, s, s.record.value.args)
    requires forall p: nat :: !Seen(Final(c, s, steps), p)
    ensures var e := Final(c, s, steps);
            && Speaker(s, e) < |e.procs| && (e.record.Some? <==> e.procs[Speaker(s, e)].stage.Killed?)
            && (e.record.Some? ==>
                  Next(c, e.(command := Reading), Read).command == Launching(s.record.value.args))
  {
    WhatARestartLeaves(c, s, steps);
    RestartsKeepTheOptions(c, s, steps, s.record.value.args);
    var e := Final(c, s, steps);
    RestartKeepsInv(c, s, steps, |s.procs|, s.record.value.pid);
    RecordLeft(e, |s.procs|, s.record.value.pid);
    assert !Seen(e, Speaker(s, e)) && !Seen(e, |e.procs| - 1);
  }

  // ----- runs -----

  /** A dispatcher in this stage, sent SIGKILL or not, not reaped. */
  function Fresh(args: seq<string>, stage: Stage): Proc {
    Proc(args, stage, false, false)
  }

  function Doomed(args: seq<string>, stage: Stage): Proc {
    Proc(args, stage, true, false)
  }

  /** A dispatcher that runs with a worker, and its record. */
  function Serving(args: seq<string>): State {
    State([Fresh(args, Up(true, false))], Some(Record(0, args, true, false)), Reading)
  }

  /** The steps lead from s to n. */
  ghost predicate Leads(c: Cli, s: State, steps: seq<Step>, n: State) {
    Legal(c, s, steps) && Final(c, s, steps) == n
  }

  lemma One(c: Cli, s: State, step: Step, n: State)
    requires Enabled(c, s, step) && Next(c, s, step) == n
    ensures Leads(c, s, [step], n)
  {
    assert [step][1..] == [];
  }

  lemma {:induction false} Joined(c: Cli, s: State, a: seq<Step>, m: State, b: seq<Step>, n: State)
    requires Leads(c, s, a, m) && Leads(c, m, b, n)
    ensures Leads(c, s, a + b, n)
    decreases |a|
  {
    if a == [] {
      assert a + b == b;
    } else {
      assert (a + b)[0] == a[0] && (a + b)[1..] == a[1..] + b;
      Joined(c, Next(c, s, a[0]), a[1..], m, b, n);
    }
  }

  lemma Two(c: Cli, s: State, a: Step, m: State, b: Step, n: State)
    requires Enabled(c, s, a) && Next(c, s, a) == m && Enabled(c, m, b) && Next(c, m, b) == n
    ensures Leads(c, s, [a] + [b], n)
  {
    One(c, s, a, m);
    One(c, m, b, n);
    Joined(c, s, [a], m, [b], n);
  }

  const TELL := [Read] + [Signal]

  function Told(args: seq<string>): State {
    State([Fresh(args, Stopping(false))], Serving(args).record, Awaiting(Serving(args).record.value))
  }

  lemma TellsIt(c: Cli, args: seq<string>)
    ensures Quiet(Serving(args)) && Leads(c, Serving(args), TELL, Told(args))
  {
    var s := Serving(args);
    Two(c, s, Read, State(s.procs, s.record, Signalling(s.record.value)), Signal, Told(args));
  }

  /** The old dispatcher outlives its grace, is sent SIGKILL, and is found at the next look: nothing
      is started, and the record is left for the moment the old one is gone. */
  lemma RestartThatFindsTheKilledOne(c: Cli, args: seq<string>)
    ensures Quiet(Serving(args))
    ensures Leads(c, Serving(args), TELL + ([Force] + [Look] + ([Test] + [Kill(0)])),
                  State([Doomed(args, Killed(true))], Serving(args).record, Done(AlreadyRunning)))
  {
    var rec := Serving(args).record;
    var told := Doomed(args, Stopping(false));
    var testing := State([told], rec, Testing(args, 0));
    var found := State([told], rec, Done(AlreadyRunning));
    var last := State([Doomed(args, Killed(true))], rec, Done(AlreadyRunning));
    TellsIt(c, args);
    Two(c, Told(args), Force, State([told], rec, Launching(args)), Look, testing);
    Two(c, testing, Test, found, Kill(0), last);
    Joined(c, Told(args), [Force] + [Look], testing, [Test] + [Kill(0)], last);
    Joined(c, Serving(args), TELL, Told(args), [Force] + [Look] + ([Test] + [Kill(0)]), last);
  }

  const LEAVE := [Drain(0, true)] + [Cleanup(0)]

  /** The old dispatcher leaves in order, and no new one can be started: nothing runs, and there is
      nothing left to restart from. */
  lemma RestartThatLosesTheDaemon(c: Cli, args: seq<string>)
    requires c.hand(args) == args
    ensures Quiet(Serving(args))
    ensures Leads(c, Serving(args), TELL + LEAVE + ([Reap(0)] + [SeeGone] + ([Look] + [FailLaunch])),
                  State([Proc(args, Cleaned, false, true)], None, Done(NotStarted)))
  {
    var left := State([Fresh(args, Cleaned)], None, Awaiting(Serving(args).record.value));
    var gone := State([Proc(args, Cleaned, false, true)], None, left.command);
    var launching := gone.(command := Launching(args));
    var last := gone.(command := Done(NotStarted));
    LeavesInOrder(c, args, left);
    Two(c, left, Reap(0), gone, SeeGone, launching);
    Two(c, launching, Look, gone.(command := Spawning(args)), FailLaunch, last);
    Joined(c, left, [Reap(0)] + [SeeGone], launching, [Look] + [FailLaunch], last);
    Joined(c, Serving(args), TELL + LEAVE, left, [Reap(0)] + [SeeGone] + ([Look] + [FailLaunch]), last);
  }

  lemma LeavesInOrder(c: Cli, args: seq<string>, left: State)
    requires c.hand(args) == args
    requires left == State([Fresh(args, Cleaned)], None, Awaiting(Serving(args).record.value))
    ensures Quiet(Serving(args)) && Leads(c, Serving(args), TELL + LEAVE, left)
  {
    var leaving := State([Fresh(args, Leaving)], Some(Record(0, args, false, false)), left.command);
    TellsIt(c, args);
    Two(c, Told(args), Drain(0, true), leaving, Cleanup(0), left);
    Joined(c, Serving(args), TELL, Told(args), LEAVE, left);
  }

  const SLAY := [Force] + [Kill(0)] + ([Reap(0)] + [Look])

  /** The old dispatcher has been killed for outliving its grace, and is gone. */
  function Slain(args: seq<string>): State {
    State([Proc(args, Killed(true), true, true)], Serving(args).record, Testing(args, 0))
  }

  lemma SlaysIt(c: Cli, args: seq<string>)
    ensures Leads(c, Serving(args), TELL + SLAY, Slain(args))
  {
    var rec := Serving(args).record;
    var killed := State([Doomed(args, Killed(true))], rec, Launching(args));
    TellsIt(c, args);
    Two(c, Told(args), Force, State([Doomed(args, Stopping(false))], rec, Launching(args)), Kill(0), killed);
    Two(c, killed, Reap(0), Slain(args).(command := Launching(args)), Look, Slain(args));
    Joined(c, Told(args), [Force] + [Kill(0)], killed, [Reap(0)] + [Look], Slain(args));
    Joined(c, Serving(args), TELL, Told(args), SLAY, Slain(args));
  }

  /** The old dispatcher is killed when its grace is over, and no new one starts: the record stays. */
  lemma RestartThatKeepsTheRecord(c: Cli, args: seq<string>)
    ensures Quiet(Serving(args))
    ensures Leads(c, Serving(args), TELL + SLAY + ([Test] + [FailLaunch]), Slain(args).(command := Done(NotStarted)))
  {
    SlaysIt(c, args);
    var last := Slain(args).(command := Done(NotStarted));
    Two(c, Slain(args), Test, Slain(args).(command := Spawning(args)), FailLaunch, last);
    Joined(c, Serving(args), TELL + SLAY, Slain(args), [Test] + [FailLaunch], last);
  }

  /** The new dispatcher records itself, and its worker takes too long: the restart is said to have
      failed beside a running, recorded daemon. */
  lemma RestartThatFailsBesideADaemon(c: Cli, args: seq<string>)
    requires c.hand(args) == args && c.accepts(args)
    ensures Quiet(Serving(args))
    ensures Leads(c, Serving(args), TELL + SLAY + ([Test] + [Launch] + ([Announce(1)] + [Deadline])),
                  State(Slain(args).procs + [Fresh(args, Up(false, false))],
                        Some(Record(1, args, false, false)), Done(TimedOut)))
  {
    SlaysIt(c, args);
    var slain := Slain(args);
    var launched := State(slain.procs + [NewProc(args)], slain.record, Polling(1));
    var up := State(slain.procs + [Fresh(args, Up(false, false))], Some(Record(1, args, false, false)), Polling(1));
    Two(c, slain, Test, slain.(command := Spawning(args)), Launch, launched);
    Two(c, launched, Announce(1), up, Deadline, up.(command := Done(TimedOut)));
    Joined(c, slain, [Test] + [Launch], launched, [Announce(1)] + [Deadline], up.(command := Done(TimedOut)));
    Joined(c, Serving(args), TELL + SLAY, slain, [Test] + [Launch] + ([Announce(1)] + [Deadline]),
           up.(command := Done(TimedOut)));
  }

  /** Typed again before the dispatcher of a timed-out restart has recorded itself, the command
      starts another beside it, and the record can name only one of the two. */
  lemma ImpatientRestartRunsTwo(c: Cli, args: seq<string>)
    requires c.hand(args) == args && c.accepts(args)
    ensures var slain, up := Slain(args), Fresh(args, Up(false, false));
            Leads(c, State(slain.procs + [NewProc(args)], slain.record, Done(TimedOut)),
                  [Again] + [Read] + ([Look] + [Test] + ([Launch] + ([Announce(1)] + [Announce(2)]))),
                  State(slain.procs + [up, up], Some(Record(2, args, false, false)), Polling(2)))
  {
    var slain, up, young := Slain(args), Fresh(args, Up(false, false)), NewProc(args);
    var one := State(slain.procs + [young], slain.record, Done(TimedOut));
    var again, spawning := one.(command := Launching(args)), one.(command := Spawning(args));
    var two := State(slain.procs + [young, young], slain.record, Polling(2));
    var half := State(slain.procs + [up, young], Some(Record(1, args, false, false)), Polling(2));
    var last := State(slain.procs + [up, up], Some(Record(2, args, false, false)), Polling(2));
    Two(c, one, Again, one.(command := Reading), Read, again);
    Two(c, again, Look, one.(command := Testing(args, 0)), Test, spawning);
    assert slain.procs + [young] + [young] == slain.procs + [young, young];
    One(c, spawning, Launch, two);
    Two(c, two, Announce(1), half, Announce(2), last);
    Joined(c, spawning, [Launch], two, [Announce(1)] + [Announce(2)], last);
    Joined(c, again, [Look] + [Test], spawning, [Launch] + ([Announce(1)] + [Announce(2)]), last);
    Joined(c, one, [Again] + [Read], again, [Look] + [Test] + ([Launch] + ([Announce(1)] + [Announce(2)])), last);
  }

  // ----- the command -----

  /** The record names a process that is found. */
  predicate Found(s: State) {
    s.record.Some? && Seen(s, s.record.value.pid)
  }

  /** The record is the new dispatcher's own, and tells of a worker that is up or has failed. */
  predicate Met(s: State) {
    && s.command.Polling? && s.record.Some?
    && s.record.value.pid == s.command.pid && (s.record.value.working || s.record.value.failed)
  }

  /** What was seen of a command as it ran: the states in which it read the record; how often it sent
      the signal, and looked and found the old dispatcher; whether it looked in vain; whether it sent
      SIGKILL; whether the last look found a dispatcher; whether a new one was started; how often the
      record was read for it, whether it was met there, and whether it was found to have gone. */
  datatype Account = Account(
    readings: seq<State>, signals: nat, looks: nat, vanished: bool, forced: bool,
    found: bool, launched: bool, polls: nat, met: bool, gone: bool)

  const Nothing := Account([], 0, 0, false, false, false, false, 0, false, false)

  function Noted(a: Account, s: State, step: Step): Account {
    match step
    case Read => a.(readings := a.readings + [s])
    case Signal =>
      a.(signals := a.signals + 1, vanished := a.vanished || !(s.command.Signalling? && Seen(s, s.command.rec.pid)))
    case SeeThere => a.(looks := a.looks + if s.command.Awaiting? && Seen(s, s.command.rec.pid) then 1 else 0)
    case SeeGone => a.(vanished := true)
    case Force => a.(forced := true)
    case Test => a.(found := a.found || (s.command.Testing? && Seen(s, s.command.pid)))
    case Launch => a.(launched := true)
    case Poll => a.(polls := a.polls + 1, met := a.met || Met(s))
    case SeeExit => a.(gone := a.gone || (s.command.Checking? && !Seen(s, s.command.pid)))
    case _ => a
  }

  /** The account of a run through these states. */
  function AccountOf(trace: seq<State>, steps: seq<Step>): Account
    requires |trace| == |steps| + 1
  {
    if steps == [] then Nothing
    else
      var n := |steps| - 1;
      Noted(AccountOf(trace[..n + 1], steps[..n]), trace[n], steps[n])
  }

  /** Step i leads from the state before it to the one behind it. */
  predicate StepAt(c: Cli, trace: seq<State>, steps: seq<Step>, i: nat) {
    && i < |steps| < |trace|
    && Enabled(c, trace[i], steps[i]) && trace[i + 1] == Next(c, trace[i], steps[i])
  }

  ghost predicate Coherent(c: Cli, trace: seq<State>, steps: seq<Step>) {
    |trace| == |steps| + 1 && forall i: nat :: i < |steps| ==> StepAt(c, trace, steps, i)
  }

  lemma {:induction false} CoherentLeads(c: Cli, trace: seq<State>, steps: seq<Step>)
    requires Coherent(c, trace, steps)
    ensures Leads(c, trace[0], steps, trace[|steps|])
    decreases |steps|
  {
    if steps != [] {
      assert StepAt(c, trace, steps, 0);
      forall i: nat | i < |steps[1..]|
        ensures StepAt(c, trace[1..], steps[1..], i)
      {
        assert StepAt(c, trace, steps, i + 1);
      }
      CoherentLeads(c, trace[1..], steps[1..]);
    }
  }

  lemma CoherentGrows(c: Cli, trace: seq<State>, steps: seq<Step>, step: Step)
    requires Coherent(c, trace, steps) && Enabled(c, trace[|steps|], step)
    ensures var n := Next(c, trace[|steps|], step);
            && Coherent(c, trace + [n], steps + [step])
            && AccountOf(trace + [n], steps + [step]) == Noted(AccountOf(trace, steps), trace[|steps|], step)
  {
    var n := Next(c, trace[|steps|], step);
    var trace', steps' := trace + [n], steps + [step];
    forall i: nat | i < |steps'|
      ensures StepAt(c, trace', steps', i)
    {
      if i < |steps| {
        assert StepAt(c, trace, steps, i);
      }
    }
    assert trace'[..|steps'|] == trace && steps'[..|steps|] == steps;
  }

  /** The processes and the record of one agent home, while one command acts on them. */
  class Home {
    const cli: Cli
    var state: State
    ghost var trace: seq<State>
    ghost var steps: seq<Step>
    ghost var account: Account

    ghost predicate Valid()
      reads this
    {
      && Coherent(cli, trace, steps) && trace[|steps|] == state && Again !in steps
      && account == AccountOf(trace, steps)
    }

    constructor (cli: Cli, s: State)
      ensures this.cli == cli && state == s && Valid() && account == Nothing && trace == [s]
    {
      this.cli, state := cli, s;
      trace, steps, account := [s], [], Nothing;
    }

    /** One effect. */
    method Act(step: Step)
      requires Valid() && Enabled(cli, state, step) && step != Again
      modifies this
      ensures Valid() && state == Next(cli, old(state), step)
      ensures account == Noted(old(account), old(state), step) && trace[0] == old(trace[0])
    {
      CoherentGrows(cli, trace, steps, step);
      var next := Next(cli, state, step);
      trace, steps, account := trace + [next], steps + [step], Noted(account, state, step);
      state := next;
    }

    /** The dispatchers, and whoever else signals them, take what steps of theirs they can. */
    method Others(todo: seq<Step>)
      requires Valid()
      modifies this
      ensures Valid() && state.command == old(state.command)
      ensures account == old(account) && trace[0] == old(trace[0])
    {
      for i := 0 to |todo|
        invariant Valid() && state.command == old(state.command)
        invariant account == old(account) && trace[0] == old(trace[0])
      {
        if IsDispatchers(todo[i]) && Enabled(cli, state, todo[i]) {
          DispatchersLeaveTheCommand(cli, state, todo[i], account);
          Act(todo[i]);
        }
      }
    }

    /** Record.Stop: the signal, and SIGKILL when the grace period is over, whose effect it does not
        wait for. */
    method StopDispatcher(rec: Record, others: nat -> seq<Step>, grace: nat)
      requires Valid() && state.command == Signalling(rec) && account == Nothing.(readings := account.readings)
      modifies this
      ensures Valid() && trace[0] == old(trace[0]) && state.command == Launching(rec.args)
      ensures account == Nothing.(readings := old(account).readings, signals := 1, looks := account.looks,
                                  vanished := account.vanished, forced := account.forced)
      ensures account.looks <= grace && (account.forced ==> account.looks == grace)
      ensures account.forced <==> !account.vanished
    {
      var running := Seen(state, rec.pid);
      Act(Signal);
      if !running {
        return;
      }
      for i := 0 to grace
        invariant Valid() && trace[0] == old(trace[0]) && state.command == Awaiting(rec)
        invariant account == Nothing.(readings := old(account).readings, signals := 1, looks := i)
      {
        Others(others(i));
        if !Seen(state, rec.pid) {
          Act(SeeGone);
          return;
        }
        Act(SeeThere);
      }
      Act(Force);
    }

    /** StartDetached: a last look, a process, and the wait until its record tells of a worker. */
    method StartDetached(others: nat -> seq<Step>, polls: nat, launches: bool) returns (outcome: Outcome)
      requires Valid() && state.command.Launching? && Unstarted(account)
      modifies this
      ensures Valid() && trace[0] == old(trace[0]) && state.command == Done(outcome)
      ensures SameStop(account, old(account)) && StartAnswers(account, polls, launches, outcome)
    {
      Others(others(0));
      var existing := state.record;
      Act(Look);
      if existing.Some? {
        Others(others(1));
        var running := Seen(state, existing.value.pid);
        Act(Test);
        if running {
          return AlreadyRunning;
        }
      }
      outcome := StartNew(others, polls, launches);
    }

    method StartNew(others: nat -> seq<Step>, polls: nat, launches: bool) returns (outcome: Outcome)
      requires Valid() && state.command.Spawning? && Unstarted(account)
      modifies this
      ensures Valid() && trace[0] == old(trace[0]) && state.command == Done(outcome) && !account.found
      ensures SameStop(account, old(account)) && StartAnswers(account, polls, launches, outcome)
    {
      Others(others(2));
      if !launches {
        Act(FailLaunch);
        return NotStarted;
      }
      var pid := |state.procs|;
      Act(Launch);
      outcome := AwaitWorker(pid, others, polls);
    }

    method AwaitWorker(pid: nat, others: nat -> seq<Step>, polls: nat) returns (outcome: Outcome)
      requires Valid() && state.command == Polling(pid)
      requires account.polls == 0 && !account.met && !account.gone
      modifies this
      ensures Valid() && trace[0] == old(trace[0]) && state.command == Done(outcome)
      ensures account == old(account).(polls := account.polls, met := outcome.Restarted?, gone := outcome.ExitedEarly?)
      ensures outcome.Restarted? || outcome.ExitedEarly? || (outcome.TimedOut? && account.polls == polls)
      ensures account.polls <= polls
    {
      for i := 0 to polls
        invariant Valid() && trace[0] == old(trace[0]) && state.command == Polling(pid)
        invariant account == old(account).(polls := i)
      {
        Others(others(2 * i));
        var up := ReadItsRecord(pid);
        if up {
          return Restarted;
        }
        Others(others(2 * i + 1));
        var gone := AskAfterIt(pid);
        if gone {
          return ExitedEarly;
        }
      }
      Act(Deadline);
      outcome := TimedOut;
    }

    method ReadItsRecord(pid: nat) returns (up: bool)
      requires Valid() && state.command == Polling(pid)
      modifies this
      ensures Valid() && trace[0] == old(trace[0])
      ensures state.command == if up then Done(Restarted) else Checking(pid)
      ensures up <==> Met(old(state))
      ensures account == old(account).(polls := old(account).polls + 1, met := old(account).met || up)
    {
      up := CameUp(state, pid);
      Act(Poll);
    }

    method AskAfterIt(pid: nat) returns (gone: bool)
      requires Valid() && state.command == Checking(pid)
      modifies this
      ensures Valid() && trace[0] == old(trace[0])
      ensures state.command == if gone then Done(ExitedEarly) else Polling(pid)
      ensures gone <==> !Seen(old(state), pid)
      ensures account == old(account).(gone := old(account).gone || gone)
    {
      gone := !Seen(state, pid);
      if gone {
        Act(SeeExit);
      } else {
        Act(Check);
      }
    }

    /** runServeRestart. others says what the dispatchers, and whoever else signals them, do before
        each look of the command; grace and polls how often it looks; permitted and launches whether
        the signal and the start of a process succeed. */
    method RunServeRestart(others: nat -> seq<Step>, grace: nat, polls: nat, permitted: bool, launches: bool)
      returns (outcome: Outcome)
      requires Valid() && state.command.Reading? && account == Nothing && trace == [state]
      modifies this
      ensures Valid() && Leads(cli, old(state), steps, state) && state.command == Done(outcome)
      ensures account == AccountOf(trace, steps) && Answers(account, grace, polls, permitted, launches, outcome)
    {
      Others(others(0));
      var rec := state.record;
      var running := rec.Some? && Seen(state, rec.value.pid);
      Act(Read);
      if rec.None? {
        outcome := NotRunning;
      } else {
        if running {
          Others(others(1));
          if permitted {
            StopDispatcher(rec.value, others, grace);
          }
        }
        if running && !permitted {
          Act(Refuse);
          outcome := Refused;
        } else {
          outcome := StartDetached(others, polls, launches);
        }
      }
      CoherentLeads(cli, trace, steps);
    }
  }

  lemma DispatchersLeaveTheCommand(c: Cli, s: State, step: Step, a: Account)
    requires Enabled(c, s, step) && IsDispatchers(step)
    ensures Next(c, s, step).command == s.command && Noted(a, s, step) == a && step != Again
  {
  }

  /** Nothing has been done for a new dispatcher yet. */
  predicate Unstarted(a: Account) {
    !a.found && !a.launched && a.polls == 0 && !a.met && !a.gone
  }

  predicate SameStop(a: Account, b: Account) {
    && a.readings == b.readings && a.signals == b.signals && a.looks == b.looks
    && a.vanished == b.vanished && a.forced == b.forced
  }

  /** What the start of a new dispatcher answers: that one is running already exactly if the last look
      found it; else a new one is started if that succeeds, and is said to be up exactly if a record
      of its own was met that tells so, to have exited exactly if it was found gone, and to have timed
      out only after all the polls. */
  predicate StartAnswers(a: Account, polls: nat, launches: bool, o: Outcome) {
    && (o.AlreadyRunning? <==> a.found)
    && (o.NotStarted? <==> !a.found && !launches)
    && (o.ExitedEarly? || o.TimedOut? || o.Restarted? <==> !a.found && launches)
    && (a.launched <==> !a.found && launches)
    && (o.Restarted? <==> a.met) && (o.ExitedEarly? <==> a.gone)
    && a.polls <= polls && (o.TimedOut? ==> a.polls == polls)
  }

  /** What a restart answers. It reads the record once, and says that nothing runs exactly if there is
      none. It refuses exactly if the recorded process is found and the signal is not permitted, and
      sends the signal exactly if it is. It sends SIGKILL exactly if the process never vanished, after
      as many looks as the grace period has, each of which found it. */
  predicate Answers(a: Account, grace: nat, polls: nat, permitted: bool, launches: bool, o: Outcome) {
    && |a.readings| == 1
    && (o.NotRunning? <==> a.readings[0].record.None?)
    && (o.Refused? <==> Found(a.readings[0]) && !permitted)
    && a.signals == (if Found(a.readings[0]) && permitted then 1 else 0)
    && (a.forced <==> a.signals == 1 && !a.vanished)
    && a.looks <= grace && (a.forced ==> a.looks == grace) && (a.signals == 0 ==> a.looks == 0)
    && (if o.NotRunning? || o.Refused? then Unstarted(a) else StartAnswers(a, polls, launches, o))
  }

  predicate IsDispatchers(step: Step) {
    match step
    case Announce(_) => true
    case GiveUp(_) => true
    case WorkerUp(_) => true
    case WorkerDown(_) => true
    case WorkerDone(_) => true
    case Drain(_, _) => true
    case Cleanup(_) => true
    case Kill(_) => true
    case Tell(_) => true
    case Reap(_) => true
    case _ => false
  }
}
