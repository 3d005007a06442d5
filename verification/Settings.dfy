/** A save from a settings page: the client's edits are merged into config.yaml, the file is loaded
    again, and the overrides of the command line are applied to what was loaded. */
module Settings {
  import opened Options
  import opened Flags
  import opened Overrides

  /** What a config.yaml or its backup holds: a document as the loader reads it, or no document. */
  datatype Content = Document(doc: Doc) | Garbage

  /** What lies outside: which documents the loader accepts, and the merge of the settings that are
      not modelled. */
  datatype Loader = Loader(loads: Doc -> bool, mergeRest: (string, string, string) -> string)

  /** config.yaml, config.yaml.bak, and the configuration the process runs. */
  datatype World = World(file: Option<Content>, backup: Option<Content>, live: Doc)

  function Loaded(l: Loader, content: Option<Content>): Option<Doc> {
    if content.Some? && content.value.Document? && l.loads(content.value.doc)
    then Some(content.value.doc) else None
  }

  // ----- the merge -----

  /** restoreUntouched on one value: what the client sent back as it was served is what the file
      says, anything else is an edit. */
  function Kept<T(==)>(sent: T, served: T, file: T): T {
    if sent == served then file else sent
  }

  function MergedLogger(sent: Logger, served: Logger, file: Logger): Logger {
    Logger(
      Kept(sent.level, served.level, file.level), Kept(sent.levels, served.levels, file.levels),
      Kept(sent.outputs, served.outputs, file.outputs), Kept(sent.file, served.file, file.file),
      Kept(sent.format, served.format, file.format))
  }

  function Merged(l: Loader, sent: Doc, served: Doc, file: Doc): Doc {
    Doc(
      Kept(sent.http, served.http, file.http), Kept(sent.gateway, served.gateway, file.gateway),
      Kept(sent.swarm, served.swarm, file.swarm), Kept(sent.scheduler, served.scheduler, file.scheduler),
      Kept(sent.swarmInsecure, served.swarmInsecure, file.swarmInsecure),
      Kept(sent.pairingTokens, served.pairingTokens, file.pairingTokens),
      Kept(sent.swarmHost, served.swarmHost, file.swarmHost),
      Kept(sent.autoDiscovery, served.autoDiscovery, file.autoDiscovery),
      Kept(sent.projectTrust, served.projectTrust, file.projectTrust),
      Kept(sent.idleTimeout, served.idleTimeout, file.idleTimeout),
      Kept(sent.schedulerTrust, served.schedulerTrust, file.schedulerTrust),
      MergedLogger(sent.logger, served.logger, file.logger),
      l.mergeRest(sent.rest, served.rest, file.rest))
  }

  /** The tokens are write-only: a client that sends none gets back those of the live document. */
  function Preserved(d: Doc, live: Doc): Doc {
    d.(pairingTokens := if d.pairingTokens == [] then live.pairingTokens else d.pairingTokens)
  }

  function Redacted(d: Doc): Doc {
    d.(pairingTokens := [])
  }

  /** The document a save writes, where served is what the client read and sent what it sends
      back. A file that does not load has nothing to keep, and the document is written whole. */
  function Written(l: Loader, w: World, served: Doc, sent: Doc): Doc {
    var next := Preserved(sent, w.live);
    match Loaded(l, w.file)
    case None => next
    case Some(file) => Merged(l, next, Preserved(Redacted(served), w.live), file)
  }

  // ----- loading and saving -----

  /** LoadWithPaths: a file that loads is copied to the backup; from one that does not the backup
      is restored, if that loads. */
  function Load(l: Loader, file: Option<Content>, backup: Option<Content>)
    : (Option<Content>, Option<Content>, Option<Doc>)
  {
    if file.None? then (file, backup, None)
    else if Loaded(l, file).Some? then (file, file, Loaded(l, file))
    else if Loaded(l, backup).Some? then (backup, backup, Loaded(l, backup))
    else (file, backup, None)
  }

  /** A save is accepted; or the document it sends is invalid, and nothing is written; or what was
      written could not be installed. */
  datatype Answer = Accepted | Invalid | NotInstalled

  /** configPut, under the lock of the configuration file. */
  function Put(ch: Choices, env: Env, l: Loader, w: World, served: Doc, sent: Doc): (World, Answer) {
    if !l.loads(Preserved(sent, w.live)) then (w, Invalid)
    else
      var backup := if w.file.Some? then w.file else w.backup;
      var (file', backup', doc) := Load(l, Some(Document(Written(l, w, served, sent))), backup);
      if doc.Some? && Accepts(ch, env, doc.value)
      then (World(file', backup', Adjusted(ch, env, doc.value)), Accepted)
      else (World(if backup'.Some? then backup' else file', backup', w.live), NotInstalled)
  }

  /** FileWatcher.Poll, when the file has moved. */
  function Poll(ch: Choices, env: Env, l: Loader, w: World): World {
    var (file', backup', doc) := Load(l, w.file, w.backup);
    World(file', backup', if doc.Some? && Accepts(ch, env, doc.value) then Adjusted(ch, env, doc.value) else w.live)
  }

  /** The files and the live configuration of one process. */
  class Backend {
    const loader: Loader
    const env: Env
    const choices: Choices
    var file: Option<Content>
    var backup: Option<Content>
    var live: Doc

    function View(): World
      reads this
    {
      World(file, backup, live)
    }

    constructor (loader: Loader, env: Env, choices: Choices, w: World)
      ensures this.loader == loader && this.env == env && this.choices == choices && View() == w
    {
      this.loader, this.env, this.choices := loader, env, choices;
      file, backup, live := w.file, w.backup, w.live;
    }

    method LoadWithPaths() returns (doc: Option<Doc>)
      modifies `file, `backup
      ensures (file, backup, doc) == Load(loader, old(file), old(backup))
    {
      doc := None;
      if file.None? {
        return;
      }
      doc := Loaded(loader, file);
      if doc.Some? {
        backup := file;
        return;
      }
      doc := Loaded(loader, backup);
      if doc.Some? {
        file := backup;
      }
    }

    /** configPut: validate, back up, write, reload, install, and roll back from the backup where
        that fails. */
    method ConfigPut(served: Doc, sent: Doc) returns (answer: Answer)
      modifies this
      ensures (View(), answer) == Put(choices, env, loader, old(View()), served, sent)
    {
      if !loader.loads(Preserved(sent, live)) {
        return Invalid;
      }
      var written := Written(loader, View(), served, sent);
      if file.Some? {
        backup := file;
      }
      file := Some(Document(written));
      var reloaded := LoadWithPaths();
      if reloaded.Some? && Accepts(choices, env, reloaded.value) {
        live := Adjusted(choices, env, reloaded.value);
        return Accepted;
      }
      if backup.Some? {
        file := backup;
      }
      answer := NotInstalled;
    }
  }

  // ----- what one save does -----

  /** Settings sent back as they were served are no edit. */
  ghost predicate Lawful(l: Loader) {
    forall served, file :: l.mergeRest(served, served, file) == file
  }

  /** A client that sends back what it was served leaves a file that loads as it is, whatever the
      process has made of it meanwhile and whatever the client was shown. */
  lemma UntouchedSaveKeepsTheFile(l: Loader, w: World, served: Doc)
    requires Lawful(l) && Loaded(l, w.file).Some?
    ensures Written(l, w, served, Redacted(served)) == Loaded(l, w.file).value
  {
  }

  /** One setting: what the client changed is as it sent it, and what it did not is as the file has it. */
  predicate EditedTo<T(==)>(sent: T, served: T, file: T, written: T) {
    (sent != served ==> written == sent) && (sent == served ==> written == file)
  }

  /** Over a file that loads a save edits setting by setting; the tokens are edited by a list that is
      neither empty nor the live one. */
  lemma EditsAreWritten(l: Loader, w: World, served: Doc, sent: Doc)
    requires Loaded(l, w.file).Some?
    ensures var file, written := Loaded(l, w.file).value, Written(l, w, served, sent);
            && EditedTo(sent.http, served.http, file.http, written.http)
            && EditedTo(sent.gateway, served.gateway, file.gateway, written.gateway)
            && EditedTo(sent.swarm, served.swarm, file.swarm, written.swarm)
            && EditedTo(sent.scheduler, served.scheduler, file.scheduler, written.scheduler)
            && EditedTo(sent.swarmInsecure, served.swarmInsecure, file.swarmInsecure, written.swarmInsecure)
            && EditedTo(sent.swarmHost, served.swarmHost, file.swarmHost, written.swarmHost)
            && EditedTo(sent.autoDiscovery, served.autoDiscovery, file.autoDiscovery, written.autoDiscovery)
            && EditedTo(sent.projectTrust, served.projectTrust, file.projectTrust, written.projectTrust)
            && EditedTo(sent.idleTimeout, served.idleTimeout, file.idleTimeout, written.idleTimeout)
            && EditedTo(sent.schedulerTrust, served.schedulerTrust, file.schedulerTrust, written.schedulerTrust)
            && EditedTo(sent.logger.level, served.logger.level, file.logger.level, written.logger.level)
            && EditedTo(sent.logger.levels, served.logger.levels, file.logger.levels, written.logger.levels)
            && EditedTo(sent.logger.outputs, served.logger.outputs, file.logger.outputs, written.logger.outputs)
            && EditedTo(sent.logger.file, served.logger.file, file.logger.file, written.logger.file)
            && EditedTo(sent.logger.format, served.logger.format, file.logger.format, written.logger.format)
            && written.pairingTokens
               == (if sent.pairingTokens == [] || sent.pairingTokens == w.live.pairingTokens
                   then file.pairingTokens else sent.pairingTokens)
            && written.rest == l.mergeRest(sent.rest, served.rest, file.rest)
  {
  }

  /** Over no file that loads the document sent is written whole, with the live tokens if it has none. */
  lemma AllIsWrittenOverNothing(l: Loader, w: World, served: Doc, sent: Doc)
    requires Loaded(l, w.file).None?
    ensures var written := Written(l, w, served, sent);
            && Redacted(written) == Redacted(sent)
            && written.pairingTokens == if sent.pairingTokens == [] then w.live.pairingTokens else sent.pairingTokens
  {
  }

  /** After an accepted save whose written document loads, the file holds what was written, and the
      process runs with it: with each of its settings that no flag decides. */
  lemma SavedSettingsAreLive(st: State, env: Env, l: Loader, w: World, served: Doc, sent: Doc)
    requires Overrides.Lawful(env)
    requires Put(ChoicesOf(st, env), env, l, w, served, sent).1.Accepted?
    requires l.loads(Written(l, w, served, sent))
    ensures var after, written := Put(ChoicesOf(st, env), env, l, w, served, sent).0, Written(l, w, served, sent);
            && after.file == Some(Document(written)) == after.backup
            && AsTyped(st, env, written, after.live)
            && ("gateway" !in st.actual ==> after.live.gateway == written.gateway)
            && ("swarm" !in st.actual ==> after.live.swarm == written.swarm)
            && ("scheduler" !in st.actual ==> after.live.scheduler == written.scheduler)
            && ("http" !in st.actual ==> after.live.http == written.http)
  {
    WhatAnAcceptedSaveLeaves(ChoicesOf(st, env), env, l, w, served, sent);
    CommandLineDecides(st, env, Written(l, w, served, sent));
  }

  /** A reload runs the process on a file that loads and is accepted, and leaves it alone otherwise;
      a file that does not load is replaced by the backup, if that does. */
  lemma ReloadRunsTheFile(st: State, env: Env, l: Loader, w: World)
    requires Overrides.Lawful(env) && w.file.Some?
    ensures var ch, after := ChoicesOf(st, env), Poll(ChoicesOf(st, env), env, l, w);
            && (after.file != w.file ==> Loaded(l, w.file).None? && after.file == w.backup && Loaded(l, w.backup).Some?)
            && (Loaded(l, after.file).Some? && AcceptedWith(st, env, Loaded(l, after.file).value)
                ==> AsTyped(st, env, Loaded(l, after.file).value, after.live))
            && (Loaded(l, after.file).None? || !AcceptedWith(st, env, Loaded(l, after.file).value)
                ==> after.live == w.live)
            && (Loaded(l, w.file).Some? || Loaded(l, w.backup).Some? ==> Loaded(l, after.file).Some?)
  {
    var ch, after := ChoicesOf(st, env), Poll(ChoicesOf(st, env), env, l, w);
    if Loaded(l, after.file).Some? {
      var doc := Loaded(l, after.file).value;
      AcceptedExactly(st, env, doc);
      if Accepts(ch, env, doc) {
        CommandLineDecides(st, env, doc);
      }
    }
  }

  /** A save that is not accepted leaves the live configuration alone. The file stays as it was, or
      comes back, exactly if the document sent is invalid, or the one written does not load, or it
      is what was there: one that loads has replaced the backup by the time the file is rolled back
      from it. */
  lemma WhenARefusedSaveIsUndone(ch: Choices, env: Env, l: Loader, w: World, served: Doc, sent: Doc)
    requires !Put(ch, env, l, w, served, sent).1.Accepted?
    ensures var (after, answer) := Put(ch, env, l, w, served, sent);
            var written := Written(l, w, served, sent);
            && after.live == w.live && (answer.Invalid? ==> after == w)
            && (answer.Invalid? <==> !l.loads(Preserved(sent, w.live)))
            && (after.file == w.file <==> answer.Invalid? || !l.loads(written) || w.file == Some(Document(written)))
  {
  }

  lemma RefusedSave(ch: Choices, env: Env, l: Loader, w: World, served: Doc, sent: Doc)
    requires l.loads(Preserved(sent, w.live))
    requires var written := Written(l, w, served, sent); l.loads(written) && !Accepts(ch, env, written)
    ensures var content := Some(Document(Written(l, w, served, sent)));
            Put(ch, env, l, w, served, sent) == (World(content, content, w.live), NotInstalled)
  {
  }

  /** A save that is accepted leaves what it has written exactly if that loads. Where it does not,
      the file is recovered, the client's edit is gone, and the process runs on the file as it was. */
  lemma WhatAnAcceptedSaveLeaves(ch: Choices, env: Env, l: Loader, w: World, served: Doc, sent: Doc)
    requires Put(ch, env, l, w, served, sent).1.Accepted?
    ensures var after, written := Put(ch, env, l, w, served, sent).0, Written(l, w, served, sent);
            && (after.file == Some(Document(written)) <==> l.loads(written))
            && (!l.loads(written) ==> Loaded(l, w.file).Some? && after.file == w.file)
            && after.live == Adjusted(ch, env, if l.loads(written) then written else Loaded(l, w.file).value)
  {
  }

  /** The switch -scheduler was typed, and nothing else. */
  const SCHEDULER_ON := Choices(None, None, None, Some(true), false, "", None, None, "", "", "", "", "")

  const NOTHING := SCHEDULER_ON.(scheduler := None)

  /** Here the settings that are not modelled are the scheduler's timeout, and one text parses. */
  function TimeoutEnv(parses: string): Env {
    Env("", s => s, s => None, s => Some(s), s => ("", []), s => [], "", s => s, s => true,
        (timeout, on) => !on || timeout == parses)
  }

  function TimeoutLoader(parses: string): Loader {
    Loader((d: Doc) => !d.scheduler || d.rest == parses, (sent, served, file) => Kept(sent, served, file))
  }

  function TimeoutDoc(on: bool, timeout: string): Doc {
    Doc(None, false, false, on, false, [], "", None, "ask", None, "", Logger("", [], [], "", ""), timeout)
  }

  lemma AdjustedTimeout(ch: Choices, parses: string, timeout: string)
    requires ch == SCHEDULER_ON || ch == NOTHING
    ensures Accepts(ch, TimeoutEnv(parses), TimeoutDoc(false, timeout)) <==> ch == NOTHING || timeout == parses
    ensures ch == NOTHING || timeout == parses ==>
              Adjusted(ch, TimeoutEnv(parses), TimeoutDoc(false, timeout)) == TimeoutDoc(ch == SCHEDULER_ON, timeout)
  {
  }

  lemma MergedTimeout(parses: string, sent: Doc, served: Doc, file: Doc)
    requires exists on, t :: sent == TimeoutDoc(on, t)
    requires exists on, t :: served == TimeoutDoc(on, t)
    requires exists on, t :: file == TimeoutDoc(on, t)
    ensures Merged(TimeoutLoader(parses), sent, served, file)
         == TimeoutDoc(Kept(sent.scheduler, served.scheduler, file.scheduler), Kept(sent.rest, served.rest, file.rest))
  {
  }

  /** A save that is refused and stays. The process was told to run the scheduler, the file leaves it
      off. A client switches it off and gives it a timeout that does not parse: the document is valid
      and the file loads, for both leave the scheduler off, and the overrides, which switch it on,
      refuse it. */
  lemma RefusedSaveThatStays(parses: string, broken: string)
    requires broken != parses
    ensures var env, l := TimeoutEnv(parses), TimeoutLoader(parses);
            var w := Started(SCHEDULER_ON, env, TimeoutDoc(false, parses));
            var edited := Some(Document(TimeoutDoc(false, broken)));
            && w.live == TimeoutDoc(true, parses)
            && Put(SCHEDULER_ON, env, l, w, w.live, TimeoutDoc(false, broken))
               == (World(edited, edited, w.live), NotInstalled)
  {
    var l := TimeoutLoader(parses);
    var w := Started(SCHEDULER_ON, TimeoutEnv(parses), TimeoutDoc(false, parses));
    var sent := TimeoutDoc(false, broken);
    AdjustedTimeout(SCHEDULER_ON, parses, parses);
    AdjustedTimeout(SCHEDULER_ON, parses, broken);
    MergedTimeout(parses, sent, w.live, TimeoutDoc(false, parses));
    assert Written(l, w, w.live, sent) == sent;
    RefusedSave(SCHEDULER_ON, TimeoutEnv(parses), l, w, w.live, sent);
  }

  /** A save that is accepted and dropped. The file has been given a timeout that does not parse since
      the client read it; the client, which was served the one before, switches the scheduler on: its
      document is valid, what is written is not, and the file is recovered. */
  lemma AcceptedSaveThatIsDropped(parses: string, broken: string)
    requires broken != parses
    ensures var env, l := TimeoutEnv(parses), TimeoutLoader(parses);
            var w := Started(NOTHING, env, TimeoutDoc(false, broken));
            Put(NOTHING, env, l, w, TimeoutDoc(false, parses), TimeoutDoc(true, parses)) == (w, Accepted)
  {
    var l := TimeoutLoader(parses);
    var w := Started(NOTHING, TimeoutEnv(parses), TimeoutDoc(false, broken));
    var served, sent := TimeoutDoc(false, parses), TimeoutDoc(true, parses);
    AdjustedTimeout(NOTHING, parses, broken);
    MergedTimeout(parses, sent, served, TimeoutDoc(false, broken));
    assert Written(l, w, served, sent) == TimeoutDoc(true, broken);
  }

  // ----- runs of one process -----

  /** A save, a reload by the watcher, or the loss of the file. */
  datatype Event = Save(served: Doc, sent: Doc) | Reload | Lose

  function Happened(ch: Choices, env: Env, l: Loader, w: World, event: Event): World {
    match event
    case Save(served, sent) => Put(ch, env, l, w, served, sent).0
    case Reload => Poll(ch, env, l, w)
    case Lose => w.(file := None)
  }

  type Stepper = (World, Event) -> World

  function Process(ch: Choices, env: Env, l: Loader): Stepper {
    (w: World, event: Event) => Happened(ch, env, l, w, event)
  }

  function After(step: Stepper, w: World, events: seq<Event>): World
    decreases |events|
  {
    if events == [] then w else After(step, step(w, events[0]), events[1..])
  }

  /** Every event of the run is such as ok asks in the world it meets. */
  predicate Always(step: Stepper, ok: (World, Event) -> bool, w: World, events: seq<Event>)
    decreases |events|
  {
    events == [] || (ok(w, events[0]) && Always(step, ok, step(w, events[0]), events[1..]))
  }

  /** A process that has started on a file: the load has made a backup of it. */
  function Started(ch: Choices, env: Env, boot: Doc): World {
    World(Some(Document(boot)), Some(Document(boot)), Adjusted(ch, env, boot))
  }

  // ----- the tokens -----

  /** The file is not lost, and a save does not edit the tokens: those the client sends, if any, are
      those that are live. */
  predicate LeavesTokens(w: World, event: Event) {
    && !event.Lose?
    && (event.Save? ==> event.sent.pairingTokens == [] || event.sent.pairingTokens == w.live.pairingTokens)
  }

  /** The tokens of a file with the operator's beside them. */
  function LiveTokens(ch: Choices, env: Env, tokens: seq<string>): seq<string> {
    TrimAll(env, tokens + if ch.token != "" then [ch.token] else [])
  }

  lemma AdjustedTokensAre(ch: Choices, env: Env, d: Doc)
    requires Accepts(ch, env, d)
    ensures Adjusted(ch, env, d).pairingTokens == LiveTokens(ch, env, d.pairingTokens)
  {
    if ch.token == "" {
      assert d.pairingTokens + [] == d.pairingTokens;
    }
  }

  predicate Holds(l: Loader, content: Option<Content>, tokens: seq<string>) {
    Loaded(l, content).Some? && Loaded(l, content).value.pairingTokens == tokens
  }

  /** The file and its backup load and list these tokens, and the process has the operator's beside
      them. */
  predicate HasTokens(ch: Choices, env: Env, l: Loader, w: World, tokens: seq<string>) {
    && Holds(l, w.file, tokens) && Holds(l, w.backup, tokens)
    && w.live.pairingTokens == LiveTokens(ch, env, tokens)
  }

  lemma LoadKeepsTokens(l: Loader, file: Option<Content>, backup: Option<Content>, tokens: seq<string>)
    requires file.Some? && Holds(l, backup, tokens)
    requires Loaded(l, file).Some? ==> Holds(l, file, tokens)
    ensures var (file', backup', doc) := Load(l, file, backup);
            Holds(l, file', tokens) && Holds(l, backup', tokens) && doc.Some? && doc.value.pairingTokens == tokens
  {
  }

  lemma EventKeepsTokens(ch: Choices, env: Env, l: Loader, w: World, event: Event, tokens: seq<string>)
    requires HasTokens(ch, env, l, w, tokens) && LeavesTokens(w, event)
    ensures HasTokens(ch, env, l, Happened(ch, env, l, w, event), tokens)
  {
    match event
    case Save(served, sent) =>
      var written := Written(l, w, served, sent);
      assert written.pairingTokens == tokens;
      LoadKeepsTokens(l, Some(Document(written)), w.file, tokens);
      var doc := Load(l, Some(Document(written)), w.file).2.value;
      if Accepts(ch, env, doc) {
        AdjustedTokensAre(ch, env, doc);
      }
    case Reload =>
      LoadKeepsTokens(l, w.file, w.backup, tokens);
      var doc := Load(l, w.file, w.backup).2.value;
      if Accepts(ch, env, doc) {
        AdjustedTokensAre(ch, env, doc);
      }
    case Lose =>
  }

  lemma {:induction false} EventsKeepTokens(
    ch: Choices, env: Env, l: Loader, w: World, events: seq<Event>, tokens: seq<string>)
    requires HasTokens(ch, env, l, w, tokens) && Always(Process(ch, env, l), LeavesTokens, w, events)
    ensures HasTokens(ch, env, l, After(Process(ch, env, l), w, events), tokens)
    decreases |events|
  {
    if events != [] {
      EventKeepsTokens(ch, env, l, w, events[0], tokens);
      EventsKeepTokens(ch, env, l, Process(ch, env, l)(w, events[0]), events[1..], tokens);
    }
  }

  /** After any number of saves, accepted, refused or dropped, and of reloads between them, where no
      client edits the tokens: the file lists its own tokens and never gains the operator's, and the
      process runs with the file's tokens and at most one of the operator's. */
  lemma SavesNeverWriteTheToken(ch: Choices, env: Env, l: Loader, boot: Doc, events: seq<Event>)
    requires l.loads(boot) && Accepts(ch, env, boot)
    requires Always(Process(ch, env, l), LeavesTokens, Started(ch, env, boot), events)
    ensures var w := After(Process(ch, env, l), Started(ch, env, boot), events);
            && Loaded(l, w.file).Some? && Loaded(l, w.file).value.pairingTokens == boot.pairingTokens
            && w.live.pairingTokens == LiveTokens(ch, env, boot.pairingTokens)
  {
    AdjustedTokensAre(ch, env, boot);
    EventsKeepTokens(ch, env, l, Started(ch, env, boot), events, boot.pairingTokens);
  }

  // ----- saves over a file that is gone -----

  /** The file may be lost, and a save leaves the tokens alone and is accepted with what it has
      written. */
  predicate Smooth(ch: Choices, env: Env, l: Loader, w: World, event: Event) {
    event.Save? ==>
      var written := Written(l, w, event.served, event.sent);
      && LeavesTokens(w, event) && l.loads(Preserved(event.sent, w.live))
      && l.loads(written) && Accepts(ch, env, written)
  }

  function SmoothFor(ch: Choices, env: Env, l: Loader): (World, Event) -> bool {
    (w: World, event: Event) => Smooth(ch, env, l, w, event)
  }

  /** The saves that meet no file. */
  function LostSaves(gone: bool, events: seq<Event>): nat
    decreases |events|
  {
    if events == [] then 0
    else
      match events[0]
      case Save(_, _) => (if gone then 1 else 0) + LostSaves(false, events[1..])
      case Reload => LostSaves(gone, events[1..])
      case Lose => LostSaves(true, events[1..])
  }

  function Repeat(tokens: seq<string>, n: nat): seq<string> {
    if n == 0 then [] else tokens + Repeat(tokens, n - 1)
  }

  lemma TrimmedOnce(ch: Choices, env: Env, tokens: seq<string>)
    requires Overrides.Lawful(env) && TrimAll(env, tokens) == tokens
    ensures LiveTokens(ch, env, tokens) == tokens + Appended(ch, env)
    ensures TrimAll(env, LiveTokens(ch, env, tokens)) == LiveTokens(ch, env, tokens)
  {
    var live := LiveTokens(ch, env, tokens);
    forall i | 0 <= i < |live|
      ensures TrimAll(env, live)[i] == live[i]
    {
      if i < |tokens| {
        assert live[i] == env.trim(tokens[i]) == TrimAll(env, tokens)[i];
      }
    }
  }

  lemma LiveTokensAreTrimmed(ch: Choices, env: Env, tokens: seq<string>)
    requires Overrides.Lawful(env)
    ensures TrimAll(env, LiveTokens(ch, env, tokens)) == LiveTokens(ch, env, tokens)
  {
  }

  /** The file is gone, or it loads and the process has its tokens with the operator's beside them. */
  predicate Current(ch: Choices, env: Env, l: Loader, w: World) {
    && TrimAll(env, w.live.pairingTokens) == w.live.pairingTokens
    && (w.file.Some? ==>
          Loaded(l, w.file).Some?
          && w.live.pairingTokens == LiveTokens(ch, env, Loaded(l, w.file).value.pairingTokens))
  }

  function CurrentFor(ch: Choices, env: Env, l: Loader): World -> bool {
    (w: World) => Current(ch, env, l, w)
  }

  lemma SmoothSave(ch: Choices, env: Env, l: Loader, w: World, event: Event)
    requires Overrides.Lawful(env) && event.Save? && Smooth(ch, env, l, w, event) && Current(ch, env, l, w)
    ensures var n := Happened(ch, env, l, w, event);
            && Current(ch, env, l, n) && n.file.Some?
            && n.live.pairingTokens == w.live.pairingTokens + if w.file.None? then Appended(ch, env) else []
  {
    var written := Written(l, w, event.served, event.sent);
    AdjustedTokensAre(ch, env, written);
    TrimmedOnce(ch, env, w.live.pairingTokens);
    LiveTokensAreTrimmed(ch, env, written.pairingTokens);
    assert w.file.None? ==> written.pairingTokens == w.live.pairingTokens;
    assert w.live.pairingTokens + [] == w.live.pairingTokens;
  }

  lemma SmoothReload(ch: Choices, env: Env, l: Loader, w: World)
    requires Overrides.Lawful(env) && Current(ch, env, l, w)
    ensures var n := Poll(ch, env, l, w);
            Current(ch, env, l, n) && n.file.Some? == w.file.Some? && n.live.pairingTokens == w.live.pairingTokens
  {
    if w.file.Some? && Accepts(ch, env, Loaded(l, w.file).value) {
      AdjustedTokensAre(ch, env, Loaded(l, w.file).value);
    }
  }

  /** In a current world an event gains the tokens exactly if it is a save that meets no file. */
  predicate GainsAt(
    step: Stepper, ok: (World, Event) -> bool, current: World -> bool, more: seq<string>, w: World, event: Event)
  {
    ok(w, event) && current(w) ==>
      var n := step(w, event);
      && current(n)
      && (n.file.None? <==> event.Lose? || (event.Reload? && w.file.None?))
      && n.live.pairingTokens == w.live.pairingTokens + if event.Save? && w.file.None? then more else []
  }

  ghost predicate Gains(step: Stepper, ok: (World, Event) -> bool, current: World -> bool, more: seq<string>) {
    forall w, event :: GainsAt(step, ok, current, more, w, event)
  }

  lemma {:induction false} LostSavesGain(
    step: Stepper, ok: (World, Event) -> bool, current: World -> bool, more: seq<string>, w: World, events: seq<Event>)
    requires Gains(step, ok, current, more) && current(w) && Always(step, ok, w, events)
    ensures After(step, w, events).live.pairingTokens
         == w.live.pairingTokens + Repeat(more, LostSaves(w.file.None?, events))
    decreases |events|
  {
    var tokens := w.live.pairingTokens;
    if events == [] {
      assert tokens + [] == tokens;
    } else {
      assert GainsAt(step, ok, current, more, w, events[0]);
      var n := step(w, events[0]);
      LostSavesGain(step, ok, current, more, n, events[1..]);
      var rest := Repeat(more, LostSaves(n.file.None?, events[1..]));
      assert tokens + more + rest == tokens + (more + rest);
      assert tokens + [] == tokens;
    }
  }

  /** A save over a file that is gone writes the live tokens, the operator's among them, into the
      new one; so the process lists the operator's token once, and once more for every such save. */
  lemma EveryLostFileCostsACopy(ch: Choices, env: Env, l: Loader, boot: Doc, events: seq<Event>)
    requires Overrides.Lawful(env) && l.loads(boot) && Accepts(ch, env, boot)
    requires Always(Process(ch, env, l), SmoothFor(ch, env, l), Started(ch, env, boot), events)
    ensures After(Process(ch, env, l), Started(ch, env, boot), events).live.pairingTokens
         == LiveTokens(ch, env, boot.pairingTokens) + Repeat(Appended(ch, env), LostSaves(false, events))
  {
    AdjustedTokensAre(ch, env, boot);
    LiveTokensAreTrimmed(ch, env, boot.pairingTokens);
    var step, ok, current := Process(ch, env, l), SmoothFor(ch, env, l), CurrentFor(ch, env, l);
    forall w, event
      ensures GainsAt(step, ok, current, Appended(ch, env), w, event)
    {
      if ok(w, event) && current(w) {
        EventGains(ch, env, l, w, event);
      }
    }
    LostSavesGain(step, ok, current, Appended(ch, env), Started(ch, env, boot), events);
  }

  lemma EventGains(ch: Choices, env: Env, l: Loader, w: World, event: Event)
    requires Overrides.Lawful(env) && Smooth(ch, env, l, w, event) && Current(ch, env, l, w)
    ensures GainsAt(Process(ch, env, l), SmoothFor(ch, env, l), CurrentFor(ch, env, l), Appended(ch, env), w, event)
  {
    var tokens := w.live.pairingTokens;
    assert tokens + [] == tokens;
    match event
    case Save(_, _) => SmoothSave(ch, env, l, w, event);
    case Reload => SmoothReload(ch, env, l, w);
    case Lose =>
  }
}
