# A verified model of coddy's command layer

`coddy` is an agent with a command line, a daemon (`coddy serve`) and a set of end-to-end
harnesses. This project models the parts of that layer where state is handed from one actor to
another, and proves what the hand-over is for:

- **The configuration mailbox** (`Mailbox`). `offerNewest` hands each reloaded configuration to
  one supervisor through a channel with one slot. Every channel operation is a step; any number of
  offers interleave with the reader. Nothing is lost or duplicated, an offer never blocks and all
  offers return, the configuration sent last is always accounted for, and the mailbox refines a
  register that a write overwrites and a read empties.
- **The command line across processes** (`Flags`, `Restart`, `ServeFlags`, `ServeControl`,
  `Dispatcher`, `ServeRestart`). A model
  of Go's `flag` package with several names to one variable, and the printer `typedServeFlags`. The
  parser undoes the printer for every accepted command line, printing what was parsed is a fixed
  point, and so every dispatcher, worker and restarted daemon runs with the operator's options.
  `coddy serve restart` runs as a state machine beside the dispatchers it acts on, their record file,
  and whatever kills them, with the exact account of what a restart leaves behind.
- **The overrides** (`Overrides`, `Settings`). What the command line decides is applied to the
  document the process loaded and to every document a reload brings. Over any run of reloads the
  live document is the newest accepted one with the typed choices in it; and over any run of saves
  from a settings page, which merge the client's edits into the file, the file never gains what only
  the process has.
- **Wire formats** (`Cdata`, `EventStream`, `TurnReader`). The stdin attachment in CDATA sections
  (XML 1.0, section 2.7), the event-stream frame reader (WHATWG HTML, section 9.2.6), and a second
  reader that acts on each line.
- **The HTTP+SSE transport** (`SseServer`, `SseClient`). The session table, the per-session queues
  and the handler threads as a state machine; in every run each stream carries its own session's
  replies, in order, and a client reads exactly those.
- **Argument grammars** (`Arguments`, `DocsLang`) and **sequence transformers** (`WakeNotice`,
  `Snapshot`, `Settle`, `HookKey`, `Fingerprint`).

`Text` and `Options` hold what the others share: splitting, joining, replacing, trimming and
decimal printing, with their laws.

Code that changes state step by step is a method proved against a specification function, and the
properties are lemmas about that function: `FlagSet.ParseArgs` and `Flags.Parse`,
`Config.ApplyProcessOverrides` and `Overrides.Adjusted`, `Backend.ConfigPut` and `Settings.Put`, the
methods of `LegacySSE` and `SseServer.Next`, `Home.RunServeRestart` and `Dispatcher.Next`,
`Channel.OfferNewest` and `Mailbox.Next`, and so on.

`dafny verify dfyconfig.toml` checks the whole project.

## What the code does not promise

Where a property holds only under a condition, the condition is stated and an input is given that
fails it:

- The mailbox keeps the configuration *sent* last. When calls overlap, that need not be the one
  *offered* last (`Mailbox.OverlappingCallsCanEndOnTheOlder`); it is exactly when no other offer
  was still running as the last call sent (`Mailbox.LastCallWinsIffItSendsAlone`). In `coddy serve`
  calls are serialised by a mutex (`internal/serve/liveconfig.go`), and then the last one offered
  wins (`Mailbox.SerialisedCallsEndOnTheLast`).
- Adjusting one document twice lists the pairing token twice (`Overrides.AdjustTwice`). The process
  adjusts each loaded document once, so its own saves do not repeat the token
  (`Settings.SavesNeverWriteTheToken`); a save over a file that is gone does, and writes the token
  into the new file (`Settings.EveryLostFileCostsACopy`). An address whose trailing slashes hide
  white space needs two rounds to settle (`Overrides.UrlThatNeedsTwo`).
- A settings save is meant to be rolled back when the overrides refuse it
  (`internal/session/manager.go:260-262`). The file stays or comes back exactly if the document sent
  is invalid, or the one written does not load or is what was there: loading it successfully has
  already replaced the backup the roll-back reads (`Settings.WhenARefusedSaveIsUndone`,
  `Settings.RefusedSaveThatStays`). And a save can be accepted with its edit gone, exactly if what
  was written does not load (`Settings.WhatAnAcceptedSaveLeaves`, `Settings.AcceptedSaveThatIsDropped`).
- A restart leaves a record exactly if the last dispatcher to have recorded itself has not removed
  it, and a dispatcher running exactly if it timed out beside one that lives, or the old one lives
  for it could not be signalled or is still found after SIGKILL (`Dispatcher.WhatARestartLeaves`).
  The last is when a restart ends for a dispatcher already running, the very one it has killed
  (`Dispatcher.AlreadyRunningIsTheKilledOne`, `RestartThatFindsTheKilledOne`). There are runs that
  lose the daemon and its record, that keep the record, and that are said to fail beside a running
  daemon (`Dispatcher.RestartThatLosesTheDaemon`, `RestartThatKeepsTheRecord`,
  `RestartThatFailsBesideADaemon`); and a restart typed again too soon runs two dispatchers with one
  record between them (`Dispatcher.ImpatientRestartRunsTwo`).
- A session of the SSE server is registered exactly while its handler runs, or for good if its
  headers could not be written, which happens before the `try` whose `finally` unregisters
  (`SseServer.RegisteredWhileRunningOrLeaked`, `SseServer.PostToALeakedSession`).
- The frames of a part of a response are the first frames of the whole, unless the part breaks off
  inside a line of bare carriage returns while a frame is being read
  (`EventStream.PartsGiveFirstFrames`, `EventStream.PartThatBreaksOff`).
- The two event-stream readers agree exactly on streams whose finished frames have at most one data
  line that is not white space, and whose unfinished last frame has none that could be a value
  (`TurnReader.ReadersAgree`, `TurnReader.TwoDataLinesPart`, `TurnReader.UnfinishedDataParts`), as long
  as no event line follows its data line (`TurnReader.EventAfterDataParts`) and no data line ends in
  white space that is none to JSON (`TurnReader.LineThatStripsApart`).
- In `coddy docs search` and `coddy sessions export` a `--` protects the next argument only; flags
  are parsed again behind it (`Arguments.DashesProtectOneArgument`).
- `hookFileKey` is documented to give the workspace-relative path for a file inside the workspace.
  It decides by the prefix `..`, so a file such as `..foo` in the workspace has one key by its
  relative and another by its absolute name (`HookKey.BothSpellingsHaveOneKey`,
  `HookKey.DottedNameHasTwoKeys`), and a key with white space at an end is not its own key
  (`HookKey.KeyOfKey`, `HookKey.BlankNameLosesItsKey`).
- `first_seen` and `settled` of the MCP settle loop are equal if the clock stands still from the
  first sighting to the first sample without the segment (`Settle.SeenBeforeSettled`,
  `Settle.StillClock`).

## Model

| member | source | states |
|---|---|---|
| Mailbox.Channel.OfferNewest | cmd/coddy/serve.go:368-376 | a call, with the supervisor taking values between its selects as it likes, is a legal interleaving that ends with its own configuration in the slot; what waited there is received or displaced, never both and never neither |
| Mailbox.Channel.Take | cmd/coddy/serve.go:354-354 | the supervisor's receive empties the slot and is one step of the state machine |
| Mailbox.RunKeepsInv | cmd/coddy/serve.go:362-376 | every interleaving of offers and reader keeps conservation, the account of the newest, and the order of what is received |
| Mailbox.NothingIsLost | cmd/coddy/serve.go:362-376 | after any run the offers made are exactly those received, displaced, waiting and pending; the one sent last waits, was received last, or was displaced by an offer yet to send; the received ones are a subsequence of those sent |
| Mailbox.QuietMailboxHoldsTheNewest | cmd/coddy/serve.go:318-321 | once all offers have returned the configuration sent last is the one waiting or the one received last |
| Mailbox.OneArmIsReady | cmd/coddy/serve.go:362-376 | in every state exactly one arm of a pending offer's select is ready |
| Mailbox.OffersReturn | cmd/coddy/serve.go:362-376 | without further calls every step spends one of 2 * pending + occupied, and a run can stop only with every offer returned and the slot empty |
| Mailbox.MailboxRefinesRegister | cmd/coddy/serve.go:318-321 | every interleaving is a history of a register overwritten by sends and emptied by receives, with the same values read |
| Mailbox.OverlappingCallsCanEndOnTheOlder | cmd/coddy/serve.go:368-376 | a run of two overlapping calls that ends on the configuration offered first |
| Mailbox.LastCallWinsIffItSendsAlone | cmd/coddy/serve.go:368-376 | when all offers have returned the last call's configuration was sent last exactly if no other offer was running when it sent |
| Mailbox.SerialisedCallsEndOnTheLast | internal/serve/liveconfig.go:19-50 | with calls one at a time the received configurations are a subsequence of the offers in call order, and a drained mailbox has handed over the last one |
| Flags.FlagSet.ParseArgs | cmd/coddy/serve.go:105-110 | parsing in place gives the variables, the typed names and the left-over arguments of the specification, or its error |
| Flags.ParseKeepsConsistent | cmd/coddy/serve.go:64-99 | after any parse a variable differs from its default only if a typed name is bound to it, and every variable has the kind of its flags |
| Flags.FlagIsRead | cmd/coddy/serve.go:105-110 | what becomes of every flag typed with one dash or two and with or without =value: declared or not, boolean or not, with a next argument or without |
| Flags.AcceptedFlag | cmd/coddy/serve.go:64-99 | a value that reads goes to the variable of the flag, the name to the typed ones, and nothing else changes; one that does not read is an error |
| Flags.BadFlagSyntax | cmd/coddy/serve.go:105-110 | three dashes, or an = where the name should be, are refused |
| Flags.BoolSpellings | cmd/coddy/serve.go:64-99 | the texts that read as true and as false are exactly the digit, and the word and its first letter, small or capital |
| Flags.SortedAscends | cmd/coddy/serve.go:388-388 | the visit walks every typed name once, in ascending lexical order |
| Restart.TypedServeFlags | cmd/coddy/serve.go:386-395 | the visit in lexical order appends one -name=value for every typed flag but d and daemon |
| Restart.PrintsOneLinePerName | cmd/coddy/serve.go:386-395 | one line for each typed name that is not skipped, in ascending order: the name behind one dash and the value of its variable behind = |
| Restart.ParseUndoesPrint | cmd/coddy/serve.go:378-395 | parsing the printed flags gives the same value in every variable and the same typed names, with the skipped flags gone, for any aliases typed in any order and any values |
| Restart.RespawnIsFixed | cmd/coddy/serve.go:382-385 | printing what was parsed from a printed command line prints it again, with the same options |
| Restart.EveryGenerationHasTheSameOptions | cmd/coddy/serve.go:241-251 | after any number of processes the command line is the first one printed, and reads as the operator's options |
| Restart.RespawnPrintsFlags | cmd/coddy/serve.go:392-392 | every argument handed on begins with a dash and cannot be taken for a word |
| ServeFlags.ServeIsWellFormed | cmd/coddy/serve.go:64-99 | every flag of coddy serve, aliases included, is bound to a variable of its kind, with a name the flag package accepts |
| ServeFlags.ServeDaemonIsIsolated | cmd/coddy/serve.go:93-94 | -d and --daemon share their variable with no other flag |
| ServeFlags.AliasesAreThePairs | cmd/coddy/serve.go:64-99 | two flags of coddy serve share their variable exactly if one is the short form of the other |
| ServeFlags.NothingTyped | cmd/coddy/serve.go:64-99 | with nothing typed the HTTP API and skill discovery are on, project MCP files are asked about, every other switch is off and every other text empty |
| ServeControl.HelpIsUsage | cmd/coddy/serve.go:105-108 | the request for help, in each of its spellings, is answered with the usage text |
| ServeControl.UnknownFlagIsNamed | cmd/coddy/serve.go:105-110 | a flag that coddy serve does not have is named in its error |
| ServeControl.WordIsNoVerb | cmd/coddy/serve.go:47-62 | a first word that is no control verb is an unexpected argument |
| ServeControl.VerbIsRead | cmd/coddy/serve.go:47-62 | a control verb is read with the arguments behind it |
| ServeControl.HandedIsNoVerb | cmd/coddy/serve.go:47-62 | what a process hands on is never read as a control verb |
| ServeControl.EveryProcessReadsTheOperatorsOptions | cmd/coddy/serve_control.go:95-101 | for every command line coddy serve accepts, every later process accepts what it is handed and has the operator's options, -d and --daemon apart |
| ServeControl.EveryProcessAdjustsAlike | cmd/coddy/serve.go:139-171 | every process down the line, whatever pairing token is in its environment, has the choices of the first but for that token, and makes the same configuration of every document where the two tokens come to the same |
| Dispatcher.Home.RunServeRestart | cmd/coddy/serve_control.go:102-133 | the command ends, whatever the dispatchers do between its looks; what happened is a run of the state machine, and its answer follows from what it saw: not running exactly without a record, refused exactly if the recorded process was found and may not be signalled, SIGKILL exactly if none of the looks of the grace period found it gone, already running exactly if the last look found one, not started exactly if that failed, restarted exactly if a poll met the new dispatcher's own record with a worker up or failed, exited early exactly if it was found gone, timed out only after all polls |
| Dispatcher.Home.StopDispatcher | internal/platform/procgroup_other.go:181-205 | the signal, the wait and SIGKILL, whose effect is not waited for, end with the new dispatcher about to be started from the record that was read |
| Dispatcher.Home.StartDetached | internal/serve/daemon.go:125-174 | a start ends as already running, not started, or in the wait, with every effect a step of the run |
| Dispatcher.Home.AwaitWorker | internal/serve/daemon.go:159-174 | the wait ends with the new dispatcher up, seen to have exited, or at the deadline |
| Dispatcher.RecordsTell | internal/serve/daemon.go:202-228 | over any run the record of a dispatcher that is up tells whether its worker is and whether one has failed |
| Dispatcher.HowADispatcherComesUp | internal/serve/daemon.go:159-228 | a new dispatcher records itself with the options it hands on, and the command has its answer at the first poll after the worker is up or has failed, and not before |
| Dispatcher.HowADispatcherLeaves | internal/serve/daemon.go:193-200 | one that is told to stop drains its worker, ends, and takes its record with it |
| Dispatcher.RestartsKeepTheOptions | internal/serve/daemon.go:176-239 | over any number of restarts, failures and kills every record found and every dispatcher that runs has the same options |
| Dispatcher.RestartKeepsInv | internal/serve/daemon.go:193-200 | through a restart only the last dispatcher can run, the record is that of the last to have written one, gone exactly if that one cleaned up, and an old one found at the last look was sent SIGKILL |
| Dispatcher.WhatARestartLeaves | cmd/coddy/serve_control.go:102-133 | in every run of a restart: exactly when a record is left and whose, exactly when a dispatcher is left running and which, and that one found already running was sent SIGKILL |
| Dispatcher.AlreadyRunningIsTheKilledOne | internal/serve/daemon.go:126-128 | at the last look the restart ends for a dispatcher already running exactly if the old one was sent SIGKILL and still answers |
| Dispatcher.RestartThatFindsTheKilledOne | internal/platform/procgroup_other.go:201-204 | a run in which the old dispatcher is sent SIGKILL, found at the next look, and gone after it |
| Dispatcher.AFailedRestartCanBeRepeatedIffKilled | cmd/coddy/serve_control.go:95-101 | with nothing running, a record is left exactly if the last dispatcher to have recorded itself was killed, and another restart starts from the first one's options |
| Dispatcher.RestartThatLosesTheDaemon | internal/serve/daemon.go:193-200 | a run that ends with nothing running and nothing to restart from |
| Dispatcher.RestartThatKeepsTheRecord | internal/platform/procgroup_other.go:201-204 | a run in which the old dispatcher is killed, no new one starts, and the record stays |
| Dispatcher.RestartThatFailsBesideADaemon | internal/serve/daemon.go:162-194 | a run that times out beside a recorded, running dispatcher |
| Dispatcher.ImpatientRestartRunsTwo | internal/serve/daemon.go:125-128 | a run in which a second restart starts a dispatcher beside one that has not recorded itself yet |
| ServeRestart.EveryRestartHasTheOperatorsOptions | cmd/coddy/serve_control.go:95-101 | from the first start on, whatever happens, a record that is found and every dispatcher that runs read as the operator's options |
| Overrides.Config.ApplySubsystemFlags | cmd/coddy/serve.go:403-417 | each of the four switches is the flag's value if it was typed and untouched if not, whatever else was typed |
| Overrides.Config.ApplyProcessOverrides | cmd/coddy/serve.go:139-171 | the configuration after the overrides is the adjusted document, up to the point of a refusal, and the result tells whether it was accepted (AcceptedExactly, CommandLineDecides say when and what) |
| Overrides.AcceptedExactly | cmd/coddy/serve.go:139-171 | a document is accepted exactly if the typed trust policy is one and goes with the file's idle timeout, and the relay and the scheduler, on or off as typed, validate |
| Overrides.CommandLineDecides | cmd/coddy/serve.go:139-171 | of an accepted document every setting is what its flag says where it was typed and the file's where not: the switches; the relay's host, which is the flag's, else the file's, else the default; its tokens, the file's and then the flag's or else the environment's; log level, output, file and format; the trust policies |
| Overrides.AdjustKeepsSwitches | cmd/coddy/serve.go:136-142 | every switch is the operator's where typed and the file's where not, accepted or refused |
| Overrides.AdjustTwice | cmd/coddy/serve.go:130-135 | a document adjusted again is accepted again and changes only by a pairing token that is already listed |
| Overrides.CommandLineTwice | cmd/coddy/serve.go:139-171 | the same for every flag set and environment the choices are read from |
| Overrides.PolicySettles | internal/config/scheduler.go:105-113 | a trust policy that was read once is read back as it is |
| Settings.Backend.LoadWithPaths | internal/config/config.go:86-107 | a file that loads is copied to the backup, one that does not is restored from a backup that does |
| Settings.Backend.ConfigPut | internal/configapi/configapi.go:244-296 | the save validates what was sent, backs up, writes the merged document, reloads and installs it, and rolls back as specified |
| Settings.EditsAreWritten | internal/config/yaml_comments.go:72-87 | over a file that loads, each setting of what is written is the client's where it differs from the one served and the file's where not |
| Settings.AllIsWrittenOverNothing | internal/config/yaml_comments.go:132-138 | over no file that loads the document sent is written whole, with the live tokens if it lists none |
| Settings.SavedSettingsAreLive | internal/configapi/configapi.go:244-296 | after an accepted save whose written document loads, the file and its backup hold it, and every setting no flag decides is live |
| Settings.ReloadRunsTheFile | internal/config/watch.go:105-125 | a reload runs on a file that loads and is accepted and leaves the process alone otherwise; a file that does not load is replaced by a backup that does |
| Settings.UntouchedSaveKeepsTheFile | internal/config/yaml_comments.go:72-87 | a client that sends back what it was served leaves the file as it is, whatever the process had made of it |
| Settings.WhenARefusedSaveIsUndone | internal/configapi/configapi.go:261-294 | a save that is not accepted leaves the live document alone, and everything exactly if the document sent is invalid; the file stays or comes back exactly if that is so, or the one written does not load or is the same |
| Settings.WhatAnAcceptedSaveLeaves | internal/config/config.go:98-105 | an accepted save leaves what it has written exactly if that loads; otherwise the file is recovered and the process runs on it |
| Settings.AcceptedSaveThatIsDropped | internal/config/config.go:98-105 | an accepted save whose valid edit, merged with a file changed meanwhile, does not load and is gone |
| Settings.RefusedSaveThatStays | internal/configapi/configapi.go:282-294 | a valid save, refused for the scheduler switched on by flag and a timeout that does not parse, that stays in the file and in its backup |
| Settings.SavesNeverWriteTheToken | internal/config/yaml_comments.go:258-292 | after any saves and reloads in which no client edits the tokens the file lists its own tokens only, and the process those and at most one of the operator's |
| Settings.EveryLostFileCostsACopy | internal/config/yaml_comments.go:132-138 | over any accepted saves, reloads and losses of the file the process lists the operator's token once, and once more for each save that meets no file |
| Overrides.UrlSettles | internal/config/swarm.go:204-226 | normalizing an address twice is normalizing it once exactly if no white space is left at its ends |
| Overrides.UrlThatNeedsTwo | internal/config/swarm.go:216-216 | an address that a second round changes |
| Overrides.ReloadsKeepTheCommandLine | internal/config/watch.go:105-125 | over any sequence of documents the live one is the newest accepted, adjusted, with every typed switch and the file's own value of every other |
| Overrides.ReloadsKeepEverySetting | internal/config/watch.go:105-125 | over any sequence of documents every setting of the live one is what its flag says, else that of the newest accepted document |
| Cdata.AttachmentReadsBack | examples/cli/cli_e2e_print_input.py:115-118 | for every body, reading the adjacent sections, each to its first end mark, gives back exactly the body and the closing tag |
| Cdata.AttachmentIsInjective | examples/cli/cli_e2e_print_input.py:115-118 | two bodies never give the same element |
| Cdata.ReadUnescaped | examples/cli/cli_e2e_print_input.py:118-118 | without the replacement the body would read back exactly if it holds no end mark |
| EventStream.SseFrames | examples/httpserver/http_e2e_background_wake.py:57-71 | the generator loop yields the frames of the specification |
| EventStream.PrintThenRead | examples/httpserver/http_e2e_background_wake.py:57-71 | reading undoes printing of a sequence of frames exactly if no event has white space at its ends or a line feed in it, and no data line begins with a space or ends with a carriage return |
| EventStream.ReadPrintRead | examples/httpserver/http_e2e_background_wake.py:57-71 | the frames read from any stream can be printed and read again |
| EventStream.PingsAreInvisible | examples/cli/cli_e2e_mcp_servers.py:171-178 | keepalive comments between frames, any number anywhere, leave the frames as they are |
| EventStream.CommentsAndOthersAreInvisible | examples/httpserver/http_e2e_background_wake.py:60-71 | comments and lines of other fields change nothing, wherever they stand, inside a frame or between two |
| EventStream.LastEventCounts | examples/httpserver/http_e2e_background_wake.py:66-67 | of two event lines of one frame the last counts |
| EventStream.BareEventTakesItBack | examples/httpserver/http_e2e_background_wake.py:66-67 | an event line without a name takes back the event before it |
| EventStream.EventAloneIsAFrame | examples/httpserver/http_e2e_background_wake.py:61-65 | an event line makes a frame without data; a blank line alone makes none |
| EventStream.PartsGiveFirstFrames | examples/httpserver/http_e2e_background_wake.py:60-65 | the frames of a part are the first frames of the whole for every continuation exactly if the part does not break off in a line of carriage returns inside a frame |
| EventStream.PartThatBreaksOff | examples/httpserver/http_e2e_background_wake.py:60-65 | such a part, whose last frame is not among those of a whole |
| TurnReader.StreamTurn | examples/httpserver/http_e2e_compact_auto.py:156-177 | the loop over lines collects what the specification does, and stops at a reported error |
| TurnReader.TurnsCollectTheirFrames | examples/httpserver/http_e2e_compact_auto.py:156-177 | the usage of a turn is the decoded data of its usage_update frames, in order and unchanged, its answer the contents of its chunks, both up to the first reported error; it has failed exactly if a chunk reports one |
| TurnReader.ReadersAgree | examples/httpserver/http_e2e_compact_auto.py:156-177 | with events before data and lines both readers strip alike, the line-driven reader and a fold over sse_frames collect the same by every decoder exactly if no finished frame that is looked into has two data lines that are not white space, and an unfinished one none that could be a value |
| TurnReader.ReadersAgreeOnResponses | examples/httpserver/http_e2e_compact_auto.py:156-177 | the same of the lines of any response, finished or broken off |
| TurnReader.ReadersAgreeOnOneLineFrames | examples/httpserver/http_e2e_compact_auto.py:156-177 | on frames of one data line after the event line it collects what the fold does, and the data of an unfinished last frame |
| TurnReader.TwoDataLinesPart | examples/httpserver/http_e2e_compact_auto.py:163-177 | on a frame of two data lines the readers agree by every decoder exactly if one of them is white space |
| TurnReader.UnfinishedDataParts | examples/httpserver/http_e2e_background_wake.py:60-71 | on a response that breaks off behind one data line they agree by every decoder exactly if the line is never a value |
| TurnReader.EventAfterDataParts | examples/httpserver/http_e2e_compact_auto.py:161-177 | on a frame whose event line follows its data they agree by every decoder exactly if the event is empty or the data is never a value |
| TurnReader.LineThatStripsApart | examples/httpserver/http_e2e_compact_auto.py:163-170 | on a frame of one data line they agree by every decoder exactly if strip takes no more off it than the white space of JSON |
| TurnReader.AnswerIsTextOf | examples/httpserver/http_e2e_background_wake.py:145-156 | the answer of a turn is the text of its frames, unless a chunk is no object or reports an error |
| SseServer.LegacySSE.OpenSession | examples/cli/cli_e2e_mcp_servers.py:156-160 | a GET registers a new session under the next id |
| SseServer.LegacySSE.SendHeaders | examples/cli/cli_e2e_mcp_servers.py:161-164 | the headers are written, or the handler ends with its session registered |
| SseServer.LegacySSE.WriteEndpoint | examples/cli/cli_e2e_mcp_servers.py:165-167 | the endpoint frame is written first, or the handler closes |
| SseServer.LegacySSE.GetReply | examples/cli/cli_e2e_mcp_servers.py:168-171 | the oldest reply is taken off the queue, or a keepalive is due |
| SseServer.LegacySSE.WriteChunk | examples/cli/cli_e2e_mcp_servers.py:171-180 | the reply in hand or a keepalive is appended to the stream, or the handler closes with the reply lost |
| SseServer.LegacySSE.Close | examples/cli/cli_e2e_mcp_servers.py:181-183 | the session leaves the table, and only it |
| SseServer.LegacySSE.FindSession | examples/cli/cli_e2e_mcp_servers.py:186-189 | the lookup finds the session the path names, if it is registered |
| SseServer.LegacySSE.SendResponse | examples/cli/cli_e2e_mcp_servers.py:190-192 | 202 or 404 by what the lookup found |
| SseServer.LegacySSE.PutReply | examples/cli/cli_e2e_mcp_servers.py:193-195 | the answer, if there is one, goes to the end of the queue the lookup found |
| SseServer.RunKeepsInv | examples/cli/cli_e2e_mcp_servers.py:144-195 | every interleaving of opens, failed headers, posts, keepalives and disconnects keeps the invariant of table, sessions, posts and replies |
| SseServer.RegisteredWhileRunningOrLeaked | examples/cli/cli_e2e_mcp_servers.py:157-183 | in every run a session is registered exactly if its handler runs or could not write its headers |
| SseServer.LeakedStaysRegistered | examples/cli/cli_e2e_mcp_servers.py:161-183 | a session whose headers could not be written stays registered whatever follows, and carries nothing that is put on its queue |
| SseServer.PostToALeakedSession | examples/cli/cli_e2e_mcp_servers.py:161-195 | a run in which a post is told 202 and its reply goes to a queue nobody reads |
| SseServer.IdsAreNeverReused | examples/cli/cli_e2e_mcp_servers.py:146-160 | the id of the next session was never that of another, open or closed |
| SseServer.RepliesKeepTheirOrder | examples/cli/cli_e2e_mcp_servers.py:156-195 | what a stream has carried, the reply in hand and the queue are the replies enqueued for that session in order; each answers one post that named it and was told 202 |
| SseServer.RepliesAreExactlyTheAnswered | examples/cli/cli_e2e_mcp_servers.py:105-119 | a post has a reply on a session exactly if it is over, found that session, and its body was an object with an id |
| SseServer.RepliesSayWhatWasAsked | examples/cli/cli_e2e_mcp_servers.py:105-119 | in every run a reply has the id of its post's message, and is the server information exactly for initialize, the tool list exactly for tools/list, the token exactly for tools/call, and empty for anything else |
| SseServer.StatusTellsTheLookup | examples/cli/cli_e2e_mcp_servers.py:188-192 | a post is told 202 exactly if its session was registered at the lookup, whatever happens before and after |
| SseServer.EndedIsFinal | examples/cli/cli_e2e_mcp_servers.py:181-195 | after its handler has ended a stream never grows; late replies stay on the queue |
| SseServer.HandlersNeverBlock | examples/cli/cli_e2e_mcp_servers.py:156-195 | in every run a GET handler has a step to take exactly until it has ended, and a post exactly until it is over or given up |
| SseServer.PostsEnd | examples/cli/cli_e2e_mcp_servers.py:185-195 | every step of a post brings it nearer its end, and one whose response cannot be written is at it |
| SseServer.StreamsOpenWithTheEndpoint | examples/cli/cli_e2e_mcp_servers.py:161-167 | in every run a handler that has registered can write its headers and the endpoint, and nothing else, before it waits |
| SseServer.QuietStreamsAreKeptAlive | examples/cli/cli_e2e_mcp_servers.py:169-177 | a handler whose queue stays empty for a second writes one keepalive and waits again |
| SseServer.EveryReplyCanReachItsStream | examples/cli/cli_e2e_mcp_servers.py:168-178 | while the client stays, a waiting handler that takes and writes what is queued puts every reply enqueued for its session on the stream |
| SseServer.EndpointNamesItsSession | examples/cli/cli_e2e_mcp_servers.py:166-186 | the announced path is read back as the session's own key |
| SseServer.SessionOfPath | examples/cli/cli_e2e_mcp_servers.py:186-187 | the key looked up is what stands behind the first session= of a path, and the path itself if it has none |
| SseServer.AnnouncedPathFinds | examples/cli/cli_e2e_mcp_servers.py:186-189 | a post to the announced path finds the session exactly if its handler runs or could not write its headers |
| SseClient.ClientReadsItsReplies | examples/cli/cli_e2e_mcp_servers.py:165-178 | in every run sse_frames reads off a session's bytes its own endpoint and then the first of its replies in order, keepalives unseen |
| Arguments.SearchLoop | cmd/coddy/docs.go:107-122 | the loop terminates with the words, the flag values or the usage error of the specification |
| Arguments.SearchFindsTheWords | cmd/coddy/docs.go:110-122 | any interleaving of well-spelled flags with words gives the words in order and every flag assigned in order |
| Arguments.SearchEndsAtAnError | cmd/coddy/docs.go:112-116 | at the first argument behind any such interleaving that does not parse, the search ends with that error |
| Arguments.FlagsMayStandAnywhere | cmd/coddy/docs.go:112-112 | moving all flags in front changes nothing |
| Arguments.LastFlagWins | cmd/coddy/docs.go:110-127 | a flag given more than once has the last value |
| Arguments.ParseAroundPositional | cmd/coddy/sessions.go:26-44 | the two parses give the one positional and the flags, the parse error, or the unexpected argument |
| Arguments.AroundAgreesWithSearch | cmd/coddy/sessions.go:23-44 | on every argument list it agrees with the search loop: the same word and flags where that finds at most one, no parse error where that has none, and an unexpected argument that is its second word |
| Arguments.DashesProtectOneArgument | cmd/coddy/docs.go:113-122 | behind -- one argument is a word whatever it is, and flags are parsed again after it |
| DocsLang.TakeLang | cmd/coddy/docs.go:30-55 | the loop returns what the specification takes, and nothing at all on a usage error |
| DocsLang.TakesExactlyTheLanguages | cmd/coddy/docs.go:26-55 | wherever --lang stands and in either spelling, the other arguments come back once and in order with the last language, if every value is a language |
| DocsLang.EveryListReads | cmd/coddy/docs.go:31-45 | every argument list is such a list, or one that ends in --lang without a value |
| DocsLang.TakeDangling | cmd/coddy/docs.go:36-38 | a --lang without a value refuses the whole line |
| DocsLang.FlagIsNoLanguage | cmd/coddy/docs.go:46-55 | a value is a language exactly if the documentation has it and it does not begin with a dash, in either spelling of the flag |
| DocsLang.PartsCompose | cmd/coddy/docs.go:30-55 | on two lists put together, the left one not dangling, the result is the composition of theirs |
| WakeNotice.QuoteLines | cmd/coddy/acp_wake.go:79-85 | rewriting the lines in place gives the quoted note |
| WakeNotice.NoteReadsBack | cmd/coddy/acp_wake.go:64-66 | a message reads as a quote of this text and this answer behind a blank line exactly if it is the note of the text followed by the answer |
| WakeNotice.Sender.SendSessionUpdate | cmd/coddy/acp_wake.go:71-87 | the attempts made and the error returned are those of the specification |
| WakeNotice.EveryUpdateOnceAndInOrder | cmd/coddy/acp_wake.go:60-87 | over any updates and failures the client's end is sent each update once and in order, each wake it was told of is followed at once by one attempt at its note, and nothing else is sent |
| WakeNotice.ErrorsComeFromTheAttempts | cmd/coddy/acp_wake.go:72-83 | the error returned is that of the last attempt, and no earlier attempt of the call failed |
| Snapshot.RowHtml | examples/cli/capture.py:57-91 | the grouping loop prints the spans of the row's runs |
| Snapshot.TheRunsOfARow | examples/cli/capture.py:78-90 | the runs are the only way to give every cell's text and effective style back in order with no run empty and no two neighbours alike |
| Snapshot.EscapesEachCharacter | examples/cli/capture.py:63-63 | the three replacements in their order escape each character once |
| Snapshot.EscapeReadsBack | examples/cli/capture.py:63-63 | un-escaping gives the text back, and the escaped text holds no angle bracket |
| Snapshot.PrintedRowReadsBack | examples/cli/capture.py:59-91 | a printed row, its spans and style attributes read as a browser does, shows the letters of each run in its style |
| Snapshot.PrintedStyleReadsBack | examples/cli/capture.py:64-76 | the style attribute reads back as colours, weight, slant and lines |
| Snapshot.PrintedRowShowsTheCells | examples/cli/capture.py:57-91 | a printed row of cells of at most one character shows one letter for each cell: its character, a blank for none, its two colours exchanged exactly if it is reversed, and exactly its marks |
| Snapshot.PrintedRowTellsTheCells | examples/cli/capture.py:78-91 | two rows of one-character cells that print alike show the same characters in the same effective styles |
| Settle.SettleLoop | examples/cli/bench_tui_startup.py:292-324 | the loop stops at the first sample that ends a second without the segment, or that gives up without a sighting; settled is the first sample of that absence, the counts are those of the last sighting |
| Settle.OneReport | examples/cli/bench_tui_startup.py:292-324 | these conditions leave one report |
| Settle.SeenBeforeSettled | examples/cli/bench_tui_startup.py:309-320 | what settled was seen in an earlier sample, and settled a second before the report; the times are equal exactly if every sample from the sighting to the absence has the same time, and differ on a clock that moves |
| Settle.StillClock | examples/cli/bench_tui_startup.py:307-320 | samples for which the two times are equal |
| Settle.LaterSamplesChangeNothing | examples/cli/bench_tui_startup.py:319-324 | nothing that would be sampled after the loop stopped changes its report |
| HookKey.KeysNameFiles | cmd/coddy/hooks.go:190-201 | two arguments have one key exactly if they mean the same path, for absolute arguments and for relative ones that do not begin with two dots when cleaned |
| HookKey.DotDotTakesBackAName | cmd/coddy/hooks.go:192-201 | in a cleaned path two dots take back the name before them |
| HookKey.DotDotAtTheRoot | cmd/coddy/hooks.go:192-201 | two dots at the root lead nowhere |
| HookKey.DotsAndDoublesAreNothing | cmd/coddy/hooks.go:192-201 | a single dot and a doubled separator lead nowhere |
| HookKey.CleanedIsClean | cmd/coddy/hooks.go:192-201 | a path of names, behind as many .. as it climbs, is its own cleaned form |
| HookKey.BothSpellingsHaveOneKey | cmd/coddy/hooks.go:190-201 | the relative and the absolute spelling of a file have one key exactly if the cleaned relative form does not begin with two dots |
| HookKey.DottedNameHasTwoKeys | cmd/coddy/hooks.go:195-200 | the two keys of ..foo under /w |
| HookKey.KeyOfKey | cmd/coddy/hooks.go:192-201 | the key of a key is the key exactly if it has no white space at its ends |
| HookKey.BlankNameLosesItsKey | cmd/coddy/hooks.go:192-201 | the key of a file whose name begins with a blank, and the key of that key |
| Fingerprint.FingerprintTellsTheSettings | cmd/coddy/serve.go:705-715 | two configurations have one fingerprint exactly when all five settings are equal, whatever the timeouts hold, and a missing one shares its fingerprint with none |

## Left out

- Mailbox.LastCallWinsIffItSendsAlone: speaks of runs in which no call begins after the last one has sent, which is what "last call" means.
- Flags.ParseKeepsConsistent: speaks of parses that succeed; a variable whose Set failed keeps its value in the model, while Go may have written a zero value, and the commands end on that error.
- Restart.TypedServeFlags: integers are unbounded and strconv.ParseInt is a parameter that reads back what Itoa prints, since no flag of coddy serve is an integer.
- Overrides.AdjustTwice: asks that the relay's names, tokens and addresses, which are not modelled one by one, settle when normalized once; UrlSettles says exactly when an address does.
- ServeControl.EveryProcessAdjustsAlike: of the environment only the pairing token is read by the overrides; the other variables of the command, such as the home and the bearer tokens, are left out.
- Overrides.ReloadsKeepTheCommandLine: the watcher's comparison with the running document, which skips a reload that would change nothing, is left out.
- TurnReader.ReadersAgree: json.loads is a parameter, of which only what every JSON decoder has is asked: white space around a value does not matter, and neither the empty string nor the end marker is a value. A data line that ends in a form feed or a no-break space decodes for one reader only; such lines are left to TurnReader.LineThatStripsApart.
- Fingerprint.FingerprintTellsTheSettings: SchedulerUserDir is a field; all that is asked of it is that it holds no NUL, as no path of the operating system does.
- Dispatcher.WhatARestartLeaves: speaks of one restart at a time, typed where a dispatcher is recorded and none is still about to record itself; ImpatientRestartRunsTwo shows what happens otherwise. A process number given to a stranger after a reboot, a signal in the moment before a dispatcher records itself, a record that does not read, one that cannot be written, the reaping of an abandoned worker, and log and configuration paths are left out.
- Settings.Backend.ConfigPut: the rendering of YAML and JSON, with its comments and spellings, is left out: a file that loads is the document it stands for. Failures to write a file are left out.
- Settings.EveryLostFileCostsACopy: speaks of saves that are accepted with what they write; SavesNeverWriteTheToken speaks of refused ones as well.
- EventStream.PrintThenRead: frames are character sequences; the UTF-8 decoding of each line, with replacement, is left out.
- SseServer.LegacySSE.WriteChunk: a write carries the whole chunk or fails; a chunk or a header cut short by a broken connection is left out.
- SseServer.LegacySSE.Read: a body that is not JSON ends its handler before anything happens, and is left out.
- SseClient.ClientReadsItsReplies: json.dumps is a parameter whose output is one line.
- Snapshot.PrintedRowTellsTheCells: css_color is a parameter whose results hold no quote and no semicolon; rows are independent, so the loop over rows and the page around them are left out.
- Settle.SettleLoop: time is a sequence of samples, with exact differences where the script rounds; the deadline and the end of the child process end the sequence, and the regular expressions that find the counts and the failed servers are left out.
- WakeNotice.QuoteLines: the text BackgroundWakeNote makes of a wake is opaque.
- HookKey.KeysNameFiles: Unix paths only; filepath.Clean and filepath.Rel are modelled as documented, on components.
- Listen addresses, tokens, the banner, the check and dry-run modes, the service manager and the other verbs of coddy serve: thin wiring.
- Provider sign-in, command dispatch, usage texts, documentation generators: network, printing and file access.
- The swarm fingerprint rests on JSON encoding, and the dollar escaping of configuration values on the loader that undoes it; both are left out.
- Session manager, supervisor, compaction and trust stores: the harnesses only observe them.
