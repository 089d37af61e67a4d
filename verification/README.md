# A verified model of the openvpn3 plugin for NetworkManager

The plugin turns NetworkManager connections into openvpn3 sessions. This project models the parts of it whose
correctness is an argument rather than a look-up, and proves that argument with Dafny 4.11:

- the Connect / Disconnect protocol with its background tasks, as a step system over all interleavings;
- the `.ovpn` language: lexer, parser, validator, printer, the two emitters that write it and the importer that reads it;
- the smaller loops around them: the status poller, the activation retry, the credential chain with the auth dialog,
  the editor's Load and Apply, and the full-tunnel test on the route table.

`dafny verify dfyconfig.toml` checks everything.

## How to read it

| files | what they hold |
|---|---|
| `Text`, `Numbers`, `Names` | strings and numbers as Rust's standard library reads them; the option names as families of keywords |
| `Lexer`, `Config`, `RoundTrip` | tokenizer, escaper, parser, validator, printer, and their inversion |
| `Reading` | text that no printer writes: comments, escapes by hand, errors and their lines, what the validator asks |
| `Remotes`, `RouteLines`, `RouteText` | the remote list codec; the preserved route lines |
| `Keys`, `Import`, `Export`, `Dictionary` | vpn.data; the importer, the exporter, and the dictionary round trip through text |
| `Imported` | what an import stores, key by key: which option writes it, and which of several wins |
| `Connect`, `Agreement` | the connect side's `Writer` and `build_profile_string`; the two emitters against each other |
| `Profile` | what the text of either emitter says, option by option, from the dictionary alone |
| `Sessions`, `Arms`, `Protocol` | guards and tasks of one session; each arm of a task to its end; the step system and its invariant |
| `Runs`, `Checkpoints`, `Window` | theorems over all runs; what each check buys; exactly when the teardown flag counts |
| `Histories`, `Outcomes`, `Farewells` | what a Connect and a Disconnect come to, from the answers they were given |
| `Poller`, `Retry`, `RouteTable` | the poller loop, the retry loop, the kernel route table |
| `Dialog`, `Credentials`, `Prompt` | what the dialog reads; slots, hints, reply; the key file the dialog writes |
| `Editor`, `Apply`, `Untouched` | widgets, Apply as a sequence of `set` calls, what a round of Load and Apply does, and what it leaves alone |

Loops of the source are methods with loops, proved equal to a recursive function; what the source promises is then
proved about that function. `Connect.Writer` and `Editor.Setting` are classes because the source appends to one buffer
and edits one setting in place.

**The step system.** `Protocol.Next` takes one step of one call or task: one access to the coordinator's lock or flag,
to the session record (the source holds the session mutex for exactly such a step), to a session guard, or one backend
call, whose outcome is a free boolean. `Protocol.After` runs any list of steps, so a theorem about `After(START, run)`
holds for every interleaving, every number of Connect, Disconnect and NewSecrets calls, and every answer of the backend.
The assumptions are these:

- an `Err` from Import or NewTunnel created nothing at the backend (the source discusses the lost reply at
  `plugin.rs:527-531`);
- a Connect creates at most one config and one session, so both are named by the number of the call;
- `abort` may do nothing: a task may stop at any moment and need not (`Dies`), aborted or not;
- the backend may drop a session or a config at any time (`LoseSession`, `LoseConfig`);
- a task can see an event of the plugin's own making only after its session.Disconnect was called.

`Histories.PastAfter` and `Farewells.FarewellAfter` read the history of one call off the run: each question the call
asked (of the record, the profile, the backend, the teardown flag) with the answer it got. The theorems of `Outcomes`
and `Farewells` say what follows from these answers; of the places in the step system they name only the return.

**Where the code and a natural reading of it differ**, the code is modelled and the difference is a lemma:

- `PrintThenParse`: parsing what was printed gives the config back exactly for well-formed configs. A config that came
  out of the parser is well-formed except for a name that still begins with two dashes, an empty blob body, and a blob
  body with CR in front of LF.
- `SameDirectives`: the two emitters agree up to order exactly when every numeric key holds a number, a `.p12` bundle
  shared by cert and key is the ca as well, and `mssfix` is unset, `yes` or a number as it would be printed.
- `SafeLineTokens`, `NonAsciiSpaceSplitsDifferently`: the route allow-list splits at Unicode white space, the lexer at
  ASCII white space; on the lines the allow-list takes they agree exactly when the white space is ASCII.
- `WholeEntryIsHost`: an IPv6 remote without brackets is cut at its first colon.
- `CommentsSayNothing`, `MarkBehindComment`: outside a blob a comment line says nothing, except that in front of a byte
  order mark it keeps the mark from being stripped.
- `UntouchedExactly`: an Apply without an edit rewrites every dictionary that is not in the editor's own form, such as
  one with a number out of its row's range.
- `FlagWindowIsExact`, `EarlyFlagIsLost`: a teardown flag stored before clear_teardown is wiped, and one stored at the
  call comes too late; then only the lock makes sure that the session is torn down.
- `OwnFailuresExactly`: a Failure for the plugin's own disconnect is held back on a Stopped status and in the attention
  task, and nowhere else. The runs that show the others use that an aborted task may still take its next steps.
- `DefaultRouteExactly`, `QuartersAreMissed`: only routes of prefix at most one count, so a full tunnel made of four /2
  routes is not recognised as a default route.

## Model

| member | source | states |
|---|---|---|
| Runs.NothingLeaks | nm-openvpn3-service/src/plugin.rs:358-701 | after any run, while the lock is free, every live session is the stashed one or was given up after two refused disconnects, every imported config is the stashed one or had Remove called, every spawned task is tracked or aborted |
| Runs.RecordIsNeverHalf | nm-openvpn3-service/src/plugin.rs:662-701 | at every moment of every run, no session in the record means no config, no task and no credential in it |
| Runs.DisconnectLeavesNothing | nm-openvpn3-service/src/plugin.rs:1339-1394 | when any Disconnect is about to return, only given-up sessions are left, even if its flag store was wiped |
| Runs.Ip4ConfigOnce | nm-openvpn3-service/src/plugin.rs:253-293 | per session and in every interleaving: one task at a time inside the Ip4Config emission, one success, two attempts, although the guard is rolled back on failure |
| Runs.FailureOnce | nm-openvpn3-service/src/plugin.rs:148-161 | the tasks of a session send at most one Failure, and where the flag is looked at first, on a Stopped status and in the attention task, none for an event caused by the plugin's own session.Disconnect |
| Window.OwnFailuresExactly | nm-openvpn3-service/src/plugin.rs:294-309 | for each reason: some run sends a Failure of that reason for the plugin's own session.Disconnect if and only if the reason belongs to an arm that does not look at the flag (timeout, lost status reads, failed emission) |
| Runs.GuardIsPrivate | nm-openvpn3-service/src/plugin.rs:387-393 | no step of another session's task or of any call changes a session's emit guard or failure guard |
| Runs.FlagInTimeStopsConnect | nm-openvpn3-service/src/plugin.rs:505-621 | a Disconnect that stores its flag after a Connect's clear_teardown and before its last check: session.Connect is never called for it, and the Connect reports neither Stopped nor Failure, whatever runs afterwards |
| Runs.FlagSilencesConnect | nm-openvpn3-service/src/plugin.rs:1285-1318 | a flag stored any time before the error path looks keeps the Connect itself silent |
| Checkpoints.FlagBeforeImportCreatesNothing | nm-openvpn3-service/src/plugin.rs:499-507 | a flag stored between clear_teardown and the first check: no config, session or task of that Connect ever comes into being |
| Checkpoints.FlagBeforeWatchStartsNoTask | nm-openvpn3-service/src/plugin.rs:558-570 | a flag stored before the second check: no background task is ever started for that Connect |
| Window.FlagWindowIsExact | nm-openvpn3-service/src/plugin.rs:369-385 | in every reachable state with a Connect holding the lock and not yet dialled: storing the flag there rules out session.Connect in every continuation if and only if the Connect stands neither at clear_teardown, nor at the open gate before it, nor at the call itself |
| Window.SilenceWindowIsExact | nm-openvpn3-service/src/plugin.rs:1285-1318 | likewise for what the Connect reports: the flag silences it for good exactly outside clear_teardown, the open gate and the report itself |
| Window.EarlyFlagIsLost | nm-openvpn3-service/src/connect_coord.rs:48-59 | such a state is reached: a flag stored in front of clear_teardown, and a run that calls session.Connect all the same |
| Runs.ConnectReturns | nm-openvpn3-service/src/plugin.rs:1271-1318 | a Connect holding the lock returns after at most twenty steps of its own, whatever the backend answers |
| Runs.DisconnectReturns | nm-openvpn3-service/src/plugin.rs:1339-1394 | a Disconnect holding the lock returns after at most seven steps of its own |
| Outcomes.QuestionsInOrder | nm-openvpn3-service/src/plugin.rs:358-621 | in every run a Connect asks its questions (vacant record, profile, flag, Import, NewTunnel, flag, wait_ready, flag, session.Connect) in that order, and none after a bad answer |
| Outcomes.ConnectStarts | nm-openvpn3-service/src/plugin.rs:572-637 | session.Connect is called exactly if it was asked; listener and attention task are there only after a good wait_ready, poller and statistics timer only after a good session.Connect, and for a Connect that returned exactly then |
| Outcomes.ConnectReports | nm-openvpn3-service/src/plugin.rs:1271-1318 | a Connect that returned said Stopped and Failure, in that order and once, exactly if some answer was bad and its report did not see the flag |
| Outcomes.FailedConnectLeavesNothing | nm-openvpn3-service/src/plugin.rs:644-701 | a failed Connect that returned: not in the record, session.Disconnect asked once and once more if refused, session left only after two refusals, config removed exactly if it was imported, all its tasks aborted |
| Outcomes.SucceededConnectHandsOver | nm-openvpn3-service/src/plugin.rs:551-642 | a Connect answered well throughout returns with a record of exactly its session, config, guards, credentials and four tasks, and nothing of it taken back |
| Outcomes.RefusedDialIsAFailure | nm-openvpn3-service/src/plugin.rs:608-621 | after an error of session.Connect, in every continuation: no poller and no statistics timer of that Connect; once returned, not in the record, live only if refused twice, Stopped and Failure reported unless the report saw the flag |
| Outcomes.EarlyErrorIsAFailure | nm-openvpn3-service/src/plugin.rs:505-590 | the same for an error of the profile, Import, NewTunnel or wait_ready: session.Connect is never called, no task of that Connect ever exists, and the config has Remove called |
| Outcomes.SilentMeansAnswered | nm-openvpn3-service/src/plugin.rs:1271-1318 | a Connect that returned in silence and saw no flag was answered well by all nine questions |
| Farewells.DisconnectOutcome | nm-openvpn3-service/src/plugin.rs:1339-1394 | a Disconnect about to return: no session.Disconnect without a session, otherwise one and a second after a refusal; given up exactly after two refusals; config removed, tasks aborted, its flag stored |
| Farewells.SaysStoppedOnce | nm-openvpn3-service/src/plugin.rs:1377-1394 | every Disconnect has said Stopped once when it returns, and not before |
| Protocol.RunsKeep | nm-openvpn3-service/src/connect_coord.rs:32-78 | the invariant (exclusive lock, whole record, every resource accounted for, safe sessions) survives every run |
| Protocol.NextKeeps | nm-openvpn3-service/src/plugin.rs:358-701 | every single step of every call and task keeps the invariant |
| Sessions.StepIsSafe | nm-openvpn3-service/src/plugin.rs:207-317 | whatever step a listener, attention or poller task takes, the guards keep their meaning for it and for the others |
| Sessions.BystanderIsSafe | nm-openvpn3-service/src/plugin.rs:872-925 | a task's step never breaks what another task relies on: compare-and-swap, roll-back and check work for any pair |
| Arms.StoppedEnds | nm-openvpn3-service/src/plugin.rs:294-309 | a Stopped status ends listener or poller; a Failure is sent unless the flag is up or one was sent |
| Arms.FailedEmissionEnds | nm-openvpn3-service/src/plugin.rs:265-292 | a failed Ip4Config emission gives the guard back and ends the task with one Failure, flag or no flag |
| Arms.StartedEmits | nm-openvpn3-service/src/plugin.rs:237-293 | on Started, who finds the guard free emits once and waits on; the poller remembers |
| Arms.StartedLoses | nm-openvpn3-service/src/plugin.rs:253-264 | on Started, who finds the guard taken sends nothing and waits on likewise |
| Arms.TimeoutEnds | nm-openvpn3-service/src/plugin.rs:797-812 | a poller that gives up before Started ends with a Failure, flag or no flag |
| Arms.SilenceEnds | nm-openvpn3-service/src/plugin.rs:927-952 | so does a poller whose session fell silent after Started |
| Arms.RejectedEnds | nm-openvpn3-service/src/plugin.rs:1080-1113 | refused input ends the attention task, with a Failure unless the flag is up or one was sent |
| Arms.OthersArePassedOver | nm-openvpn3-service/src/plugin.rs:222-311 | an observation leaves a waiting task as it is exactly if it is for another task or another stage |
| Poller.Poll | nm-openvpn3-service/src/plugin.rs:762-968 | the poller loop, exits in the middle included, computes the state the round-by-round specification gives |
| Poller.ActivationBudget | nm-openvpn3-service/src/plugin.rs:766-812 | before Started is reported: at most 99 status reads and 99 half-second sleeps, no hundredth round is waited for, and giving up has used the whole budget |
| Poller.WatchdogEnds | nm-openvpn3-service/src/plugin.rs:913-964 | after Started a round ends the poller exactly on a Stopped status or on the sixth lost read in a row, a success resetting the count |
| Poller.EndsLoudly | nm-openvpn3-service/src/plugin.rs:797-964 | in the very round that ends the poller: a Failure is sent exactly if an emitter is at hand and, on a Stopped status, no Disconnect had asked for it |
| Poller.NeverEndsQuietly | nm-openvpn3-service/src/plugin.rs:797-964 | with an emitter throughout, the poller ends without a Failure only on a Stopped status in a round in which a Disconnect had asked for it |
| Poller.ActivationRound | nm-openvpn3-service/src/plugin.rs:797-925 | before Started, from what a round learns alone and on the numbers of the wire: when it gives up, sees Stopped, fails its emission, or reports Started, be it by status or by a tun device |
| Poller.WatchdogRound | nm-openvpn3-service/src/status.rs:64-129 | after Started only the five Stopped statuses of the wire and six lost reads in a row end the poller |
| Retry.WithActivationRetry | ovpn3-client/src/retry.rs:22-58 | calls up to and including the first reply that is not transient, within the attempts, one sleep fewer than calls, and hands back the last reply |
| Retry.TakesEffectAtMostOnce | ovpn3-client/src/retry.rs:60-95 | if errors raised before dispatch have no effect, the retried operation takes effect at most once, in the call whose reply is returned |
| Retry.RetriedErrors | ovpn3-client/src/retry.rs:60-95 | exactly four errors are retried, one of them by a part of its message |
| Retry.LostReplyIsFinal | ovpn3-client/src/retry.rs:60-95 | a call that ends in a lost reply, a timeout or a lost connection is the last one |
| Lexer.Tokenize | nm-openvpn3-properties/src/import_export.rs:1120-1185 | the tokenizer loop yields the words of the specification, or its first lexical error |
| Lexer.PushEscaped | nm-openvpn3-properties/src/import_export.rs:1189-1230 | the escaper's two passes append exactly the escaped form |
| Lexer.TokensEscaped | nm-openvpn3-properties/src/import_export.rs:1120-1230 | any list of words, escaped and joined by spaces, tokenises back to itself |
| Lexer.EscapedArgsHaveNoBreak | nm-openvpn3-properties/src/import_export.rs:1189-1230 | escaped words never contain a line feed, so a directive stays on its line |
| Reading.CommentEndsWords | nm-openvpn3-properties/src/import_export.rs:1120-1134 | on any line, `;` or `#` in front of a word ends the words |
| Reading.BackslashKeeps | nm-openvpn3-properties/src/import_export.rs:1165-1180 | in an unquoted word a backslash keeps the next character, and a trailing one is an error |
| Reading.DoubleQuotesEscape | nm-openvpn3-properties/src/import_export.rs:1136-1164 | in double quotes `\n`, `\t` and any other escaped character mean what they should; a missing quote and a trailing backslash are errors |
| Reading.SingleQuotesAreLiteral | nm-openvpn3-properties/src/import_export.rs:1136-1164 | in single quotes every character stands for itself, and the word ends with its quote |
| Reading.EscapedForm | nm-openvpn3-properties/src/import_export.rs:1189-1230 | a value is printed bare, in single quotes or in double quotes exactly by the characters it holds |
| Config.Parse | nm-openvpn3-properties/src/import_export.rs:75-135 | the parse loop with its blob bodies, line numbers and four errors, then validation |
| Reading.CommentsSayNothing | nm-openvpn3-properties/src/import_export.rs:75-93 | a blank or comment line anywhere outside a blob changes neither the directives nor the error, but for the line number |
| Reading.ErrorNamesItsLine | nm-openvpn3-properties/src/import_export.rs:75-93 | a line whose words cannot be read is reported under its own number |
| Reading.MarkSaysNothing | nm-openvpn3-properties/src/import_export.rs:78-78 | one byte order mark in front of a text says nothing |
| Reading.LineEndingsAreAlike | nm-openvpn3-properties/src/import_export.rs:79-80 | CR LF ends a line as LF does |
| Reading.DashesAreDropped | nm-openvpn3-properties/src/import_export.rs:93-94 | two dashes in front of a name are dropped, once |
| Reading.WordsSay | nm-openvpn3-properties/src/import_export.rs:96-131 | a first word in angle brackets opens a blob, any other line is an option with its arguments |
| Reading.InlineNames | nm-openvpn3-properties/src/import_export.rs:39-50 | exactly ten names may stand inline |
| Config.ReadBody | nm-openvpn3-properties/src/import_export.rs:97-120 | an inline body runs to the first line that trims to its close tag, or is unterminated |
| Config.Validate | nm-openvpn3-properties/src/import_export.rs:141-239 | the first directive that breaks a rule, or none |
| Config.AcceptedIffAllValid | nm-openvpn3-properties/src/import_export.rs:141-239 | acceptance is a property of each directive alone |
| Reading.ValidPort | nm-openvpn3-properties/src/import_export.rs:147-159 | `port` and `proxy-port` want a number from 1 to 65535 |
| Reading.ValidTransport | nm-openvpn3-properties/src/import_export.rs:182-211 | the words `comp-lzo` and `proto` take |
| Reading.ValidVersion | nm-openvpn3-properties/src/import_export.rs:212-221 | the versions, each with or without a fallback in the word |
| Reading.ValidKeepalive | nm-openvpn3-properties/src/import_export.rs:222-234 | `keepalive` wants two numbers |
| Reading.OthersAreValid | nm-openvpn3-properties/src/import_export.rs:141-239 | nothing is asked of any option but twelve |
| Config.Emit | nm-openvpn3-properties/src/import_export.rs:246-283 | the printing loop appends the printed form of each directive in order |
| RoundTrip.PrintThenParse | nm-openvpn3-properties/src/import_export.rs:75-283 | for every config over arbitrary Unicode: parsing its text gives it back if and only if it is well-formed |
| RoundTrip.ParsedTextIsShaped | nm-openvpn3-properties/src/import_export.rs:75-135 | what the parser returns has no tag for a name, only inline blob names, terminated bodies without their own close line, and passes validation |
| RoundTrip.ReparseIsStable | nm-openvpn3-properties/src/import_export.rs:75-283 | a parsed config survives printing and parsing exactly when it has none of the three fragile shapes |
| Numbers.PrintsBack | nm-openvpn3-service/src/build_profile.rs:247-258 | parsing a decimal as i64 and printing it gives the same spelling exactly for canonical spellings |
| Numbers.ReadsU32 | nm-openvpn3-properties/src/import_export.rs:151-155 | printed numbers are read back up to 4294967295, with or without a plus, never with a minus |
| Numbers.ReadsI64 | nm-openvpn3-service/src/build_profile.rs:247-258 | printed integers are read back exactly between the two ends of 64 bits |
| Remotes.CodecIsLossless | nm-openvpn3-properties/src/import_export.rs:707-737 | for every non-empty list of entries, IPv6 hosts included, joining on import and splitting on export give the same list |
| Remotes.WholeEntryIsHost | nm-openvpn3-service/src/build_profile.rs:491-515 | for every entry: the host is the whole entry if and only if it holds no colon and no pair of brackets, and without brackets no host keeps a colon |
| Remotes.SeparatorsAreAlike | nm-openvpn3-service/src/build_profile.rs:137-146 | space, tab and comma separate gateways alike, whatever stands on either side |
| Imported.EntryTextOf | nm-openvpn3-properties/src/import_export.rs:707-737 | the text of an entry: colons between the fields, brackets around a host with a colon |
| RouteLines.SafeLineTokens | nm-openvpn3-service/src/build_profile.rs:437-474 | every line the allow-list takes tokenises; its words are those the allow-list checked if and only if its white space is ASCII, and then the first one is an allowed name |
| RouteLines.NonAsciiSpaceSplitsDifferently | nm-openvpn3-service/src/build_profile.rs:453-473 | a concrete line that the allow-list takes and that the lexer reads as one other word |
| RouteLines.AllowedNames | nm-openvpn3-service/src/build_profile.rs:437-474 | the allow-list takes exactly five names, and not the script options |
| RouteText.RouteTextReads | nm-openvpn3-properties/src/import_export.rs:1017-1037 | the route text the importer collects reads back as the same route directives |
| Import.ProjectOntoNmData | nm-openvpn3-properties/src/import_export.rs:658-1107 | the importer's loop over map and flags equals the fold over directives followed by the direction and the type |
| Imported.ConnectionTypeOf | nm-openvpn3-properties/src/import_export.rs:1086-1101 | for any directives: static-key, password-tls, tls or password by which options with an argument, inline blobs and bundles occur |
| Imported.LastWriterWins | nm-openvpn3-properties/src/import_export.rs:673-1048 | for any directives and any key: it holds what the last option that writes it wrote, by a table from keys to options, and is absent if none does |
| Imported.KeepaliveSetsBoth | nm-openvpn3-properties/src/import_export.rs:1039-1046 | `keepalive` sets both pings unless a later option sets them |
| Imported.TimeoutsShareAKey | nm-openvpn3-properties/src/import_export.rs:815-819 | `server-poll-timeout` and `connect-timeout` write one key, the later wins |
| Imported.TcpExactly | nm-openvpn3-properties/src/import_export.rs:694-706 | TCP is stored exactly if some `proto` does not begin with udp |
| Imported.ListsAreCollected | nm-openvpn3-properties/src/import_export.rs:707-737 | every `remote` adds an entry and every `route` a line, in order, and nothing else does |
| Imported.StandaloneDirectionGoes | nm-openvpn3-properties/src/import_export.rs:1073-1084 | the last standalone direction goes to tls-auth, or to a static key without tls-auth, or nowhere |
| Import.KeyDirectionMoves | nm-openvpn3-properties/src/import_export.rs:667-671 | moving a single standalone key-direction anywhere in the list leaves the result unchanged |
| Import.KeyDirectionEffect | nm-openvpn3-properties/src/import_export.rs:1073-1084 | where a standalone direction ends up, for any directives around it |
| Import.InlineDirectionWins | nm-openvpn3-properties/src/import_export.rs:927-949 | an inline direction on tls-auth, or on secret when there is no tls-auth, always wins over the standalone one |
| Export.DirectivesFromNmData | nm-openvpn3-properties/src/import_export.rs:310-649 | the exporter's pushes, its loops over tables, remotes and routes included, give the specified directive list |
| Profile.EachOptionOnce | nm-openvpn3-properties/src/import_export.rs:310-649 | the text of either emitter, read back, says every option at most once, with the arguments that follow from the dictionary |
| Profile.NumbersSaid | nm-openvpn3-properties/src/import_export.rs:310-649 | numbers by name: Save-As copies what is set, the connect side only what reads as a number |
| Profile.KeyMaterialSaid | nm-openvpn3-properties/src/import_export.rs:310-649 | ca, cert, key and pkcs12 by connection type and bundle, on both sides |
| Profile.OnlyKnownOptions | nm-openvpn3-properties/src/import_export.rs:310-649 | nothing else is said, but for preserved lines of the route family |
| Dictionary.ExportParsesBack | nm-openvpn3-properties/src/import_export.rs:246-649 | for every dictionary: the exported text parses back to the exported directives exactly when they all pass validation |
| Dictionary.ImportOfExport | nm-openvpn3-properties/src/import_export.rs:310-1107 | importing the export of a normal-form dictionary gives it back, type inference, bundle collapse and name types included |
| Dictionary.SaveAsThenImport | nm-openvpn3-properties/src/import_export.rs:303-1107 | the same through the text: export, print, parse, import lands at the same dictionary |
| Connect.BuildProfileString | nm-openvpn3-service/src/build_profile.rs:114-423 | the profile text, directive by directive in the order of the source, or the error for a missing remote |
| Profile.DeviceSaid | nm-openvpn3-service/src/build_profile.rs:272-290 | every dictionary gives one `dev`: the value of dev, else of dev-type, else tap if tap-dev is yes, else tun; and one `proto` |
| Profile.ProxySaid | nm-openvpn3-service/src/build_profile.rs:376-412 | a proxy of either kind with its default port 8080 or 1080, and the retry flag only with it |
| Profile.TailSaidAlways | nm-openvpn3-service/src/build_profile.rs:413-423 | nobind, auth-nocache and script-security 2 stand in every text |
| Profile.AccountSaidAlways | nm-openvpn3-service/src/build_profile.rs:413-423 | persist-key, persist-tun, user and group stand in every text |
| Profile.TypeSaid | nm-openvpn3-service/src/build_profile.rs:125-135 | `client` and `auth-user-pass` follow from the connection type |
| Profile.ClampSaid | nm-openvpn3-service/src/build_profile.rs:245-258 | `mssfix` bare for yes; otherwise as stored on Save-As, read and printed again on the connect side |
| Profile.GatewaysSaid | nm-openvpn3-service/src/build_profile.rs:136-158 | the gateways in the order of the list, a protocol without a port getting 1194 |
| Profile.BundlePath | nm-openvpn3-service/src/build_profile.rs:476-489 | a bundle is a path ending in .p12 or .pfx in either case |
| Profile.TypedNameArgs | nm-openvpn3-service/src/build_profile.rs:336-372 | a name with a type in front is said as name and type |
| Connect.Writer.Line | nm-openvpn3-service/src/build_profile.rs:554-565 | one escaped line is appended to the buffer |
| Connect.Writer.LineOpt | nm-openvpn3-service/src/build_profile.rs:571-585 | only the arguments that are there are written, and no line when none is |
| Connect.Writer.RawLine | nm-openvpn3-service/src/build_profile.rs:589-592 | the line is appended as it stands |
| Connect.WriteRoutes | nm-openvpn3-service/src/build_profile.rs:320-332 | exactly the trimmed lines that pass the allow-list are appended, raw and in order |
| Agreement.TextSaysDirectives | nm-openvpn3-service/src/build_profile.rs:114-423 | for every dictionary, lexing the profile text gives the directives it was built from, raw route lines included |
| Agreement.SameDirectives | nm-openvpn3-service/src/cross_emitter_agreement.rs:1-64 | the two emitters give permutations of one another if and only if the numbers parse, the bundle is whole and the clamp is canonical |
| Agreement.BothOrNeither | nm-openvpn3-service/src/cross_emitter_agreement.rs:1-64 | where they agree, the profile text lexes to a permutation of the exported directives, and the validator takes both texts or neither |
| RouteTable.ParseProcRoutes | nm-openvpn3-service/src/routes.rs:45-81 | the rows of the device with well-formed columns, the header skipped, in order |
| RouteTable.RowReads | nm-openvpn3-service/src/routes.rs:45-81 | a row with destination, gateway, metric and mask in their columns reads as that route with the prefix of its mask, and for no other device |
| RouteTable.MaskGivesPrefix | nm-openvpn3-service/src/routes.rs:71-72 | counting the ones of a byte-swapped prefix mask gives the prefix length |
| RouteTable.DefaultRouteCoversEverything | nm-openvpn3-service/src/routes.rs:95-102 | whatever else is in the table, when it is called a default route each of the 2^32 addresses matches some route |
| RouteTable.DefaultRouteExactly | nm-openvpn3-service/src/routes.rs:95-102 | on every table: the test holds if and only if the routes of prefix at most one without host bits cover every address between them |
| RouteTable.ExactOnHalves | nm-openvpn3-service/src/routes.rs:95-102 | on tables of such routes alone the test holds if and only if every address is covered |
| RouteTable.QuartersAreMissed | nm-openvpn3-service/src/routes.rs:84-102 | four /2 routes cover everything and are not recognised |
| Dialog.ReadVpnDetails | nm-openvpn3-auth-dialog/src/main.rs:195-245 | the reading loop computes the two maps of the line-by-line specification |
| Dialog.DetailsComeBack | nm-openvpn3-auth-dialog/src/main.rs:195-245 | the stream for any data map and secret map with clean keys and values reads back as the two maps |
| Dialog.ReadsWhatWasWritten | nm-openvpn3-auth-dialog/src/main.rs:204-206 | entries in front of DONE are read back whatever follows it, later entries winning |
| Dialog.EntriesArePaired | nm-openvpn3-auth-dialog/src/main.rs:217-239 | on any stream, each entry pairs a value line with a key line of its own kind with no blank line, key line or DONE between |
| Dialog.LinesMean | nm-openvpn3-auth-dialog/src/main.rs:204-239 | the four prefixes, the end mark and the blank line, spelled out; a value may hold further equals signs |
| Dialog.OtherLinesSayNothing | nm-openvpn3-auth-dialog/src/main.rs:204-239 | any other line says nothing |
| Dialog.Escape | nm-openvpn3-auth-dialog/src/main.rs:471-483 | the escaping loop equals its specification |
| Dialog.EscapedIsOneLine | nm-openvpn3-auth-dialog/src/main.rs:471-483 | no escaped value contains a line feed, a carriage return or a tab |
| Dialog.EscapedReadsBack | nm-openvpn3-auth-dialog/src/main.rs:471-483 | an escaped value can be read back, so escaping loses nothing |
| Credentials.HandleAttention | nm-openvpn3-service/src/plugin.rs:1126-1212 | without an error the stored values fill their slots in order and the rest is asked for with its hints; otherwise the first refused slot ends it with what was provided so far |
| Credentials.KeyOfSlot | nm-openvpn3-service/src/secrets.rs:31-48 | the key of a slot by parts of its name, in order of precedence |
| Credentials.ValueComesFrom | nm-openvpn3-service/src/secrets.rs:58-68 | user names come from vpn.data, everything else from the secrets, and nothing empty |
| Credentials.HintsInOrder | nm-openvpn3-service/src/plugin.rs:1189-1212 | the message under its tag in front, then one key per open slot, and the default prompt |
| Credentials.FilledAndLackingPartition | nm-openvpn3-service/src/plugin.rs:1155-1187 | every slot is provided or left open, and none twice |
| Credentials.EachOnItsSide | nm-openvpn3-service/src/secrets.rs:58-68 | provided slots get the stored value, open slots have none |
| Credentials.Needs | nm-openvpn3-auth-dialog/src/main.rs:324-384 | hints take precedence; without them the type, the secret flags and the proxy decide |
| Credentials.AskedByType | nm-openvpn3-auth-dialog/src/main.rs:358-384 | what is asked for without hints, by connection type, key file and proxy |
| Credentials.RequiredByFlags | nm-openvpn3-auth-dialog/src/main.rs:247-260 | a secret is not required exactly when the flag of value 4 is set |
| Credentials.AskedByHint | nm-openvpn3-auth-dialog/src/main.rs:330-356 | what each hint asks for |
| Credentials.DialogAsksExactly | nm-openvpn3-auth-dialog/src/main.rs:324-356 | fed the plugin's hints, the dialog needs exactly the open slots' keys that are not user names, with the plugin's prompt |
| Credentials.NewSecrets | nm-openvpn3-service/src/plugin.rs:1402-1489 | the walk provides pending slots in order up to a teardown it sees, and otherwise succeeds exactly when nothing is missing |
| Credentials.CompleteReplyFillsEverySlot | nm-openvpn3-service/src/plugin.rs:1434-1489 | a reply with a value for every key the dialog asked for leaves nothing missing and provides every open slot, in order |
| Credentials.SucceedsExactly | nm-openvpn3-service/src/plugin.rs:1434-1489 | without a teardown the call returns success if and only if every slot has a value and every value is taken |
| Credentials.CompleteReplySucceeds | nm-openvpn3-service/src/plugin.rs:1402-1489 | for such a reply, what the walk of `new_secrets` returns is success with every open slot provided |
| Prompt.WriteOutput | nm-openvpn3-auth-dialog/src/main.rs:167-186 | the text on the standard output, line by line: the no-secret file, or the key file with its four entries |
| Prompt.BlockFormat | nm-openvpn3-auth-dialog/src/main.rs:386-469 | a block of the file line by line, spelled out |
| Prompt.NoSecretFormat | nm-openvpn3-auth-dialog/src/main.rs:386-469 | the whole file when no secret is needed, spelled out |
| Prompt.OutputAsksExactly | nm-openvpn3-auth-dialog/src/main.rs:386-469 | read back as a key file, the output asks for a key if and only if it is needed and interaction is allowed, whatever the prompt and captions hold, and the prompt comes back |
| Prompt.HintedKeysAreAsked | nm-openvpn3-auth-dialog/src/main.rs:324-469 | from the plugin's hints to the file: it asks for exactly the open slots' keys that are not user names, and for nothing without interaction |
| Editor.ComboRow | nm-openvpn3-editor/src/editor.rs:850-903 | the ids behind the row and the selected position: the vocabulary, a stranger behind it, the last match selected |
| Editor.ComboShows | nm-openvpn3-editor/src/editor.rs:121-210 | with the vocabulary of each combo key, in it or not, the row shows the stored value, and the first choice for none |
| Editor.UpdateConnection | nm-openvpn3-editor/src/editor.rs:538-813 | a gap refuses the Apply and changes nothing; otherwise every owned key is set or removed and the imported foreign keys are replayed |
| Editor.AppliedAt | nm-openvpn3-editor/src/editor.rs:640-655 | key by key: owned keys hold what their widget says, replayed keys the imported value, all others are unchanged |
| Apply.RoundSettles | nm-openvpn3-editor/src/editor.rs:538-813 | Load then Apply is idempotent on every dictionary |
| Untouched.UntouchedExactly | nm-openvpn3-editor/src/editor.rs:538-813 | an Apply without an edit leaves a dictionary as it is if and only if it is in the editor's own form, with the range of each number spelled out |
| Untouched.NumbersAreCut | nm-openvpn3-editor/src/editor.rs:918-927 | any stored number comes back cut to the range of its row |
| Untouched.NumbersAreKept | nm-openvpn3-editor/src/editor.rs:1106-1112 | a canonical number in its range is kept |
| Untouched.OfferedIsValid | nm-openvpn3-editor/src/editor.rs:121-210 | the words the combos offer for compression, peer and name type are exactly those the validator takes |
| Apply.ForeignKeysAreUntouched | nm-openvpn3-editor/src/editor.rs:249-299 | whatever the widgets say, a key without one is never changed |
| Apply.CombosKeepStrangers | nm-openvpn3-editor/src/editor.rs:886-899 | an ungated combo that was not touched stores back any string it was loaded with, in its vocabulary or not, whatever else was edited |
| Apply.AcceptedMeansCredentials | nm-openvpn3-editor/src/editor.rs:95-119 | for every dictionary and every state of the widgets: Apply is accepted if and only if what it stores has a gateway and the credentials of its type |
| Apply.RoundKeepsVerdict | nm-openvpn3-editor/src/editor.rs:95-119 | the result of a round is accepted exactly when its input was |
| Apply.AcceptedApplyConnects | nm-openvpn3-service/src/build_profile.rs:171-208 | every accepted Apply, whatever was edited, yields a dictionary the connect side can build, with the credential directives its type requires |
| Apply.UntouchedApplyConnects | nm-openvpn3-editor/src/editor.rs:538-813 | the same for a round of Load and Apply without an edit |

## Left out

- The spelling of the vpn.data keys: a key is a constructor named after it; option names are spelled out.
- libnm, GObject and GTK: foreign calls; a widget is the value it shows, and a string never holds NUL.
- D-Bus transport, the backend's own behaviour, DNS, uid lookup and access grants: results of a call are free choices.
- Reading the pinned profile file and the key files: the profile read is one step that may fail, and whether a key file is encrypted is a parameter.
- The NetworkManager state cache and its StateChanged signals: only the Stopped and Failure signals that `connect` itself sends, the Failure signals of the tasks and the Ip4Config emissions are recorded.
- The statistics task: it only reads a guard; it appears as a tracked handle.
- A failing emitter in `handle_attention`: SecretsRequired is taken to go out.
- Pending input slots inside the step system: NewSecrets is there as the refresh of the stored credentials; the walk over the slots is modelled on its own.
- Process exit after Disconnect: every run is as long as it likes, as with `--persist`.
- ConnectCoordinator and SessionState as objects: their methods block and interleave, so their fields are fields of `Protocol.State` and each access is a step.
- Lock fairness: that a parked call is woken in the end is not claimed, only that a holder always returns.
- The tick counter's 32-bit width: it restarts at Started and would take centuries to wrap.
- Remotes.SplitRemote: one function stands for the two textually equal splitters of the two crates.
- RouteLines.IsSafeRouteLine: one predicate stands for the two copies of the allow-list, and Lexer.PushEscaped for the two copies of the escaper.
- Dictionary.NormalForm: a precondition of the dictionary round trip; keys without both an export and an import arm, empty values and values the importer rewrites cannot come back and are excluded; `SampleIsNormal` shows that there are such dictionaries.
- Apply.ReadsIntegers: the float parser of the spin rows is a parameter that reads back the integers the editor prints and does not read `yes`; infinities and NaN are not modelled.
- Secrets in the editor: `set_secret` only writes the keyring side, which vpn.data does not hold.
- Translated texts: the captions and the fallback prompt of the dialog are parameters.
- Packaging, migration scripts and the benign-log wording: no behaviour of the kind proved here.
