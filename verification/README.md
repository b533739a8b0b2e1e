# A verified model of the agents orchestrator

The orchestrator keeps named agents, each with one CLI session, in a registry
file that any number of processes share. This project models its hard parts in
Dafny and proves what they are for.

**Processes, locks and the registry.** `Flock` is the operating system: paths,
inodes whose numbers are reused as soon as they are neither named nor open,
descriptors, shared and exclusive locks that bind to inodes. `Commands` runs
create, fork, talk, chat, list, delete and teardown as step machines over it:
open, lock, stat, unlink, unlock and close are separate steps, any number of
processes interleave, and any of them may die between two steps. `Wiring`,
`Exclusion`, `Commits`, `Outcomes`, `Reclaims`, `Probing`, `Sessions` and
`Revalidation` are the invariants, and `Runs` states the theorems about every
reachable state: what never happens, and what a command that ends has done.
`Registry` says what one
committed operation does, `Entries` how an entry is read and written, and
`Orchestrators` is the class that performs each critical section on live objects.
`ValidatedTurns` is the retry loop under one wall-clock budget.

Two facts shape the statements. A turn looks its agent up by name again when it
commits, so a delete and a re-creation of the name behind its back let the turn
land on the new entry (`Registry.LateTurnsLandOnTheNewEntry`); every invariant is
therefore keyed by name, and holds all the same. And which sessions exist is up
to the backends: a turn reports no session, one nobody has seen, or the one it
was handed. The theorems hold for every backend that keeps to that.

**Streams.** `Utf8`, `Newlines`, `Streaming` and `PipeLoop` model a child whose
output arrives in arbitrary pieces: however it is cut, text, lines and bytes come
out as from one whole buffer, and a schedule that gets every stream to its end in
time completes the call. `JsonScan` finds objects in text, and `OpenCode`
folds an event stream into a reply.

**Schemas.** `Schema` is the walk over a reply schema, and what acceptance means
for every reply that validates, under the 2020-12 draft of JSON Schema (sections
10.2.1.2, 10.3.1.2, 10.3.2.1 and 10.3.2.3 of the core, 6.5.3 of the validation
part). How a pattern matches and all keywords beyond the ones named are parameters; the
theorems hold for every choice of them.

**Teams.** `Teams` holds the two directory walks that list teams and resolve
their names, over any directory tree.

**The workflow driver.** `Planning` and `Building` are its two runs as classes.
What agents and other branches do is arbitrary (`:= *`); which commands work, what
labels say and which tests pass are parameters, so that every way to end has its
cause. The requires clauses of `Team` and of the code reviewer's turn are what the
driver must establish.

**The ratchet.** `MakeLists` expands variables of a Makefile and compares that
with what make does; `Ratchet` is the gate over a run of accepted commits.

Where the code differs from what one would expect of it, the code was followed:

- The gate on the gates reads a list that make may not have. What follows a `#`
  is read, so a gate can be commented out of the list by an accepted commit
  (`Ratchet.CommentedOutGatesPass`). A reference in another spelling (`${B}`,
  `a$(B)`) is taken as it stands; a name used above the line that binds it is
  expanded all the same; an include, an eval and a binding its patterns do not
  cover go unread, and an override among them decides even from above the list
  (`Ratchet.OverriddenGatesPass`); an escaped backslash at the end of a line is
  taken for a continuation; an assignment or a rule with nothing after its
  operator is read on into the next line (tools/ratchet_gate.py:310, 353 and 375).
  `MakeLists.ReadsWhatMakeSees` says exactly when make has what is read whatever
  the file leaves open, `Ratchet.MakeKeepsEveryGateIff` exactly when a run of
  accepted commits costs make no gate, and a lemma shows each failure.
- `patternProperties` passes the walk, and lets undeclared keys into a reply,
  under values their patterns ask for. `Schema.PinsKeysIff` says exactly when a
  node pins the keys of its objects, and `Schema.PatternsLetKeysIn` shows a reply
  with a key too many.
- A debate may end unconverged without a rebuttal, when labels that had
  converged change between two readings (examples/gabriels_workflow_v5/go.py:257
  and 269). `Planning.UnconvergedWithoutRebuttalIff` says exactly when.

## Model

| member | source | states |
|---|---|---|
| Flock.ExecuteKeepsSound | orchestrator/core.py:235-253 | no system call lets two paths share an inode, an inode in use change its path, or incompatible locks coexist on one inode; a descriptor goes dead only through an unlink after its open |
| Flock.ReapKeepsSound | orchestrator/core.py:252-253 | the same when a process dies with descriptors open |
| Flock.OneExclusiveHolder | orchestrator/core.py:211-253 | an exclusive lock on a live inode of a path shuts out every other lock on a live inode of that path |
| Flock.OthersUntouched | orchestrator/core.py:188-200 | one process's call changes no descriptor of another, and kills none unless it unlinks that path |
| Wiring.EventKeepsWired | orchestrator/core.py:211-253 | at every program point a process has open and locked exactly what that point says, and nothing else |
| Exclusion.OneOwner | orchestrator/core.py:188-253 | two owners of one agent's lock are one process |
| Exclusion.EventKeepsGuarded | orchestrator/core.py:732-760 | no step makes a lock dead that is owned; team and state lock files are never unlinked under an open descriptor |
| Exclusion.TeardownIsAlone | orchestrator/cli.py:657-682 | a process removing the team's files holds the team lock alone |
| Commits.EventKeepsCommitted | orchestrator/core.py:849-858 | the file is always the committed log replayed; a staged file is one operation on the current one; what any command read was committed whole |
| Commits.OneWriter | orchestrator/core.py:785-787 | two processes in a critical section are one process |
| Commits.EffectsExtendLog | orchestrator/core.py:837-858 | a step appends at most one legal operation to the log and rewrites nothing of it |
| Sessions.EventKeepsSettled | orchestrator/core.py:166-184 | a stored session, and one a running turn carries, belongs to the name whose turn first reported it |
| Sessions.OneResumer | orchestrator/core.py:129-152 | two processes that continue one session are one process |
| Revalidation.EventKeepsPatient | orchestrator/core.py:236-249 | failed revalidations never exceed the unlinks of the path since it was first opened |
| Progress.SomebodyRuns | orchestrator/core.py:719-760 | a process that waits for a lock leads to one that can take a step |
| Progress.UnblockedRuns | orchestrator/core.py:538-562 | a process that does not wait for a held lock always has a step the system allows |
| Runs.TurnsNeverOverlap | orchestrator/core.py:538-562 | in every reachable state at most one process is between a validated acquire and the release, per agent |
| Runs.UnlinksHitOwnInode | orchestrator/core.py:732-760 | a lock file that disappears is the inode its remover holds exclusively, or one nobody has open while its team is torn down |
| Runs.NotFoundHandlerSeesItsOwnFile | orchestrator/core.py:551-562 | a talk or chat that found no agent always finds its own lock file live |
| Runs.SessionsAreUnique | orchestrator/core.py:166-184 | no two agents store one session, and an entry still to be forked has none |
| Runs.OneConversationPerSession | orchestrator/core.py:789-806 | no two commands continue one session at a time, whatever is deleted and re-created behind them |
| Runs.RegistryIsItsLog | orchestrator/core.py:837-858 | the file equals the committed operations applied one at a time; each counter equals the turns committed on its name since creation |
| Runs.CommitsLandOnTheLastOne | orchestrator/core.py:628-643 | no lost update: a replace applies its operation to the very file the last commit left |
| Runs.ReadersSeeCommits | orchestrator/core.py:586-592 | a read, locked or not and at any moment, sees a registry that was committed whole |
| Runs.NoDeadlock | orchestrator/core.py:719-760 | while any command is unfinished some command can take a step |
| Runs.GivingUpTakesUnlinks | orchestrator/core.py:203-249 | giving up after 100 attempts takes at least 100 unlinks of that path since its first open |
| Runs.TeardownIsIsolated | orchestrator/cli.py:398-414 | while a teardown removes files no other command of the team is inside or has a state or agent lock file open |
| Runs.OneWriterEver | orchestrator/core.py:799-804 | the non-revalidating state lock excludes, across any sequence of teardowns |
| Runs.SectionsThatSucceedHaveCommitted | orchestrator/core.py:420-490 | in every reachable state a spawn, fork, delete or commit section that says it succeeded has its command's own operation in the log right after what it read; a lookup carries the stored session and resumes the pending fork before it |
| Runs.RefusalsHaveReasons | orchestrator/core.py:420-490 | a section refuses if and only if the registry it read gives the reason: the name is taken or unknown, the configuration asked for is another, or the source has no session or a backend that cannot fork |
| Runs.WorkedTurnsAreCarriedToTheCommit | orchestrator/core.py:153-185 | a turn that worked, and was no fork come back as its source, goes on to the commit with the reported session, or the one there was |
| Runs.RetriesGoOnFromTheCommit | orchestrator/core.py:674-714 | a talk that has committed lets go of the agent or has another turn, under the same live lock and from the session it has just committed |
| Runs.FinishedCommandsAreInTheLog | orchestrator/core.py:612-644 | a create, fork, talk or delete that ended without an error is in the log with its own arguments, and a talk with the session it ended on |
| Runs.FinishedCommandsHaveAsked | orchestrator/core.py:719-760 | a list that ended has an answer for every agent it read; a talk, chat or delete that ended without an error has asked for its own agent's lock |
| Runs.BusyMeansInUse | orchestrator/core.py:808-835 | a list calls an agent busy only while another command than a list has its lock, and does so whenever a turn is in flight, unless the file it opened is no longer the lock file |
| Runs.PassedOverMeansIdle | orchestrator/core.py:826-835 | a list passes an agent over as idle only where there is no lock file, and then no turn on it is in flight |
| Runs.ChatsStartIff | orchestrator/core.py:586-606 | a chat starts if and only if the agent is there with a session, no pending fork and a backend that can chat; otherwise it fails |
| Runs.ChatsRunOnTheStoredSession | orchestrator/core.py:586-612 | a chat that runs is on the session its agent stores |
| Runs.CreatingTalksHaveAnAgent | orchestrator/cli.py:131-168 | a creating talk goes for the lock of an agent that was there when it looked or that it has created itself |
| Runs.NoLockFileIsLeftBehind | orchestrator/core.py:551-562 | a delete, and a talk or chat that found no agent, leaves no live lock file of its own |
| Runs.TeardownsLeaveNothing | orchestrator/cli.py:398-416 | a teardown that is done removing has left no lock file but the team's, and an empty registry |
| Registry.TurnsCountCommits | orchestrator/core.py:636-643 | a stored counter is the number of turn commits since the entry was created, or on top of what an older entry said |
| Registry.LogsSetOneEntryAtATime | orchestrator/core.py:484-520 | one more operation sets or removes one entry, field by field, and leaves the others: a fork has its source's configuration and, pending, its session, no session of its own, and no turns |
| Registry.LateTurnsLandOnTheNewEntry | orchestrator/core.py:628-643 | after a delete and re-creation mid-turn the old turn's session is stored in the new entry as its first turn |
| Entries.ReadsBackWhatItWrote | orchestrator/core.py:283-377 | reading an entry undoes writing it, for every record |
| Entries.ReadsEachKeyIntoItsField | orchestrator/core.py:283-307 | an entry reads as a record if and only if each key holds that field of it, and is absent or null where the field is unset |
| Entries.RewritesExactlyTheCanonical | orchestrator/core.py:345-377 | an entry is rewritten unchanged if and only if it is in the canonical shape |
| Entries.DecodesWhatItEncoded | orchestrator/core.py:837-858 | the same for a whole registry file |
| Orchestrators.Agent.Talk | orchestrator/core.py:121-185 | a fork that reports its source's id stores nothing and fails; no id keeps the session there was; a new id replaces it and ends the pending fork |
| Orchestrators.Orchestrator.Reload | orchestrator/core.py:837-847 | all live agents are new objects that equal the file's entries, or nothing changes and the file is at fault |
| Orchestrators.Orchestrator.LoadAll | orchestrator/core.py:837-844 | every entry is loaded exactly when every one of them is usable |
| Orchestrators.Orchestrator.Persist | orchestrator/core.py:849-858 | the file becomes the live registry's encoding |
| Orchestrators.Orchestrator.Create | orchestrator/core.py:492-520 | a new entry with the given configuration and pending session, no session and no turns, and no other change, exactly when the backend exists |
| Orchestrators.Orchestrator.Spawn | orchestrator/core.py:420-432 | commits exactly one creation, if and only if the name is free and the file and backend are good; the new entry is spelled out, and every other is as the file had it |
| Orchestrators.Orchestrator.Ensure | orchestrator/core.py:434-454 | hands back the stored agent, or creates it, and says which |
| Orchestrators.Orchestrator.Fork | orchestrator/core.py:456-490 | commits exactly one fork if and only if source, session, backend and free name allow it; the new agent and the stored entry are the source's configuration with its session pending, which its first turn resumes; a refusal changes nothing and says the first of four reasons |
| Orchestrators.Orchestrator.Delete | orchestrator/core.py:719-725 | commits exactly one removal, if and only if the name is there, and hands back the agent that was stored |
| Orchestrators.Orchestrator.Commit | orchestrator/core.py:628-643 | a turn's session goes to whatever entry has its name now, though the agent object is no part of the registry |
| Orchestrators.Orchestrator.Turn | orchestrator/core.py:612-644 | the registry after a turn is the file as others left it with that turn applied; a failed turn writes nothing |
| ValidatedTurns.Run | orchestrator/core.py:646-714 | at most retries + 1 attempts; each has the time that is left, rounded up, and one second at least; the first asks and every later one repairs what was wrong with the reply before; each resumes what the one before left committed; a returned reply satisfies the validator; a retry is had if and only if the reply was refused with a retry and time left; another failure is passed on if and only if that turn does not go through; with turns that keep their timeouts the call ends before start + timeout + 1 second |
| ValidatedTurns.Attempted | orchestrator/core.py:677-683 | one attempt commits the session the next one will resume |
| ValidatedTurns.TimeoutsNeverGrow | orchestrator/core.py:676-681 | attempt timeouts never increase under any monotone clock |
| ValidatedTurns.RefusalsAreRepairs | orchestrator/core.py:674-714 | every attempt that was retried had the time that was left and its prompt, and left a retry and time for another |
| ValidatedTurns.BudgetHolds | orchestrator/core.py:671-708 | so, when turns keep their timeouts, the attempt after any number of them is over before start + timeout + 1 second |
| Utf8.DecodeContinues | backends/base.py:168-172 | decoding in two pieces with the leftover carried over is decoding the whole, malformed input included |
| Utf8.DecodesWhatWasEncoded | backends/base.py:168-172 | the strict decoder of RFC 3629, section 3, undoes the encoder on every text |
| Utf8.EncodesWhatWasDecoded | backends/base.py:168-172 | and accepts nothing else: what decodes, and the leftover, are the only bytes that encode it |
| Newlines.TranslateSplits | backends/base.py:168-172 | newline translation may be done in two pieces wherever no CRLF pair is cut |
| Newlines.TranslateIsReplacing | backends/base.py:168-172 | it is replacing CRLF pairs and then every CR that is left |
| Newlines.LinesExtend | backends/base.py:230-232 | more text completes the pending remainder and adds its own lines after it |
| Newlines.LinesMakeTheText | backends/base.py:230-232 | the lines and the remainder are the text, and no line feed is inside them |
| Streaming.NewlineStepsAddUp | backends/base.py:168-172 | a newline decoder that holds back a closing CR loses and adds nothing, chunk by chunk |
| Streaming.DecodingGoesOn | backends/base.py:223-226 | the text of the next chunk is what the longer buffer comes to beyond the shorter one, and it is malformed exactly when the whole is |
| Streaming.StreamingReader.Decoder | backends/base.py:223-226 | the new text is what the longer buffer translates to beyond the shorter one; malformed bytes are noticed exactly when the whole buffer's would be |
| Streaming.StreamingReader.Append | backends/base.py:227-242 | after any chunk the formatter has had the events of the complete lines, in order, once each |
| Streaming.StreamingReader.HandOver | backends/base.py:230-242 | cutting lines off one at a time hands over all complete ones and keeps the remainder |
| Streaming.StreamingReader.Read | backends/base.py:209-221 | a read captures just what it took of the pipe, keeps captured + waiting = written, and reports the end exactly at the end of decodable output |
| Streaming.FinishedReaderIsBatch | backends/base.py:336-341 | text and events of a finished reader are those of decoding the whole output at once, for every way it was cut into reads |
| PipeLoop.StreamingInput.Write | backends/base.py:262-276 | prompt bytes written + pending = prompt; stdin is closed once drained or refused |
| PipeLoop.StreamingTurn.Select | backends/base.py:279-301 | only open pipes are waited on |
| PipeLoop.StreamingTurn.ReadReady | backends/base.py:304-311 | a ready output gives up some of what waits, a chunk at most, and the other is left alone; the stream is dropped if and only if it has ended with nothing waiting; it fails only on bytes that are no text |
| PipeLoop.StreamingTurn.WriteReady | backends/base.py:314-324 | a ready stdin takes at least one and at most so many of the next bytes of the prompt, or refuses them all from then on; it is given up exactly when the prompt is out or refused |
| PipeLoop.StreamingTurn.Turn | backends/base.py:374-383 | one pass makes of all three pipes exactly what the round says: each ready output still waited on gives up a chunk or its end, and a ready stdin takes some of the prompt or refuses the rest; it times out if and only if nothing waited on is ready, and fails only on bytes that are no text |
| PipeLoop.StreamingTurn.Run | backends/base.py:365-409 | the call completes if and only if the child exits and the schedule gets both outputs to their ends as text and the prompt taken or refused, with something ready in every round before; it then has the whole-buffer text and the events of its complete lines, handed over once each; a timeout has the raw captures |
| PipeLoop.RunCli | backends/base.py:343-409 | the same from fresh pipes on, with or without a prompt on stdin: when exactly a whole call completes, and with what |
| JsonScan.Objects | backends/base.py:420-441 | the spans found are ordered and disjoint, each is what the decoder gives, and no decodable brace outside them is passed over |
| JsonScan.ScansAgree | backends/base.py:420-441 | a text has only one such scan |
| JsonScan.OneScan | backends/base.py:420-441 | so a text yields one list of objects and no other |
| JsonScan.PrintedObjectsAreFound | backends/base.py:423-425 | objects printed among brace-free text are found, all of them and nothing else, in order, by any decoder to which an object's own text says where it ends |
| JsonScan.Embedded | backends/opencode.py:141-161 | the object taken from a reply is the last one of its scan |
| OpenCode.Parse | backends/opencode.py:264-323 | errors first, then sessions; otherwise each written id once, in the order of first writing, with its last text, and the last event's session |
| OpenCode.ReportedError | backends/opencode.py:180-188 | the detail is that of the last error event that has one |
| OpenCode.FoldExtends | backends/opencode.py:288-299 | one event more writes its own block and leaves every other alone |
| OpenCode.FoldsAgree | backends/opencode.py:277-299 | an event stream leaves one order and one text per block, no other |
| OpenCode.UpdateChangesOneBlock | backends/opencode.py:288-299 | writing a known id changes that block alone, and nothing at all when replayed |
| OpenCode.RepliesJoin | backends/opencode.py:304-311 | between any two parts of a reply there is one line feed, and nothing else |
| OpenCode.TextEventsWrite | backends/opencode.py:279-299 | only a text event with a part that has an id and a text writes, and it writes that |
| Schema.RuleBroken | orchestrator/schema.py:114-134 | a node keeps the rules if and only if it uses none of oneOf, allOf and not and, describing an object, is closed and requires every property; the rule named is the first broken one, and the missing names are exactly those |
| Schema.KidsAreTheSubschemas | orchestrator/schema.py:137-153 | the walk enters the properties, items, anyOf branches and definitions of a node, and nothing else |
| Schema.KidsInDocumentOrder | orchestrator/schema.py:144-153 | properties come before items, those before anyOf branches and those before definitions, each kind in document order |
| Schema.NamesTheFirst | orchestrator/schema.py:156-169 | the violation named is the first in document order |
| Schema.WalksWhatItReaches | orchestrator/schema.py:156-169 | the nodes walked are exactly those some chain of steps reaches |
| Schema.PassesIffAllKeep | orchestrator/schema.py:156-169 | no violation is named if and only if every object subschema within reach keeps the rules |
| Schema.ValidHasShape | orchestrator/schema.py:104-169 | under a schema that passes, every valid value has, at every described object level, every declared key and no other but what that node's own patterns admit |
| Schema.ClosedHere | orchestrator/schema.py:114-134 | the same for one level |
| Schema.CanonicalMeansTheSame | orchestrator/schema.py:217-224 | keeping the schema re-serialised with sorted keys changes no verdict on any value |
| Schema.LoadsIffStrict | orchestrator/schema.py:186-224 | a document loads if and only if it is a schema for an object and everything within reach keeps the rules |
| Schema.LoadingFailsAtTheFirstCause | orchestrator/schema.py:171-215 | a document that does not load is refused for the first of five causes, each of which says what is wrong |
| Schema.RepliesPassIffValid | orchestrator/schema.py:226-250 | under a schema that loads, a reply is let through, unchanged, if and only if it is an object that is valid under the schema's own file |
| Schema.ValidIffFilledIn | orchestrator/schema.py:114-134 | for an object node within the rules, without patterns and anyOf, that is: exactly the declared keys, each with a valid value, nothing required beyond them, and no objection from its types or other keywords |
| Schema.AcceptedRepliesHaveTheShape | orchestrator/schema.py:226-250 | a reply that is let through under a schema that was let through has the shape of the schema's own file; without patterns at the root its keys are exactly the declared ones |
| Schema.PatternsLetKeysIn | orchestrator/schema.py:58-73 | a concrete accepted schema and reply with an undeclared key |
| Schema.PatternAdmits | orchestrator/schema.py:114-134 | under a node without anyOf a valid object stays valid with any undeclared key its patterns match, under a value all of those ask for, if no other keyword objects |
| Schema.PinsKeysIff | orchestrator/schema.py:114-134 | an object node within the rules, without anyOf, pins the keys of its valid objects if and only if no undeclared key matches a pattern and has a value that all patterns matching it ask for, or nothing is valid under it, where the other keywords let such keys in |
| Ordering.Sorted | orchestrator/schema.py:221-224 | a sorted list of keys is ascending and has the same keys as often |
| Teams.WalkIsExact | orchestrator/teams.py:65-103 | a path is yielded if and only if real directories lead there, none of them stops the walk, it is at most four levels down, and it is a hit |
| Teams.WalksOnce | orchestrator/teams.py:65-103 | no path is yielded twice |
| Teams.BothVisitTheOpen | orchestrator/teams.py:106-139 | both walks get to the same directories |
| Teams.DiscoverIsExact | orchestrator/teams.py:111-121 | listed are exactly the real directories at depth one to four that are teams with no team above them |
| Teams.ResolveIsExact | orchestrator/teams.py:142-168 | a name stands for exactly the candidates within reach whose path ends in its segments |
| Teams.TeamsDoNotNest | orchestrator/teams.py:14-18 | no listed team lies inside another |
| Teams.ListedOnce | orchestrator/teams.py:111-121 | no name is listed twice |
| Teams.ListedNamesResolve | orchestrator/teams.py:153-156 | every listed team is among what its own printed name stands for |
| Teams.LongerNamesNarrow | orchestrator/teams.py:153-156 | writing more of the path before a name only shrinks what it stands for |
| Teams.GrowingHidesNothing | orchestrator/teams.py:146-151 | nothing that is added without making a team takes a hit away |
| Teams.StrayAgentsHideNothing | orchestrator/teams.py:146-151 | in particular an empty agents directory, put anywhere |
| Teams.SplitsWhatItJoined | orchestrator/teams.py:153-166 | splitting a printed name gives its path back |
| Planning.Team.Talk | examples/gabriels_workflow_v5/go.py:28-53 | backend flags must go with an agent's first turn and with no other; a turn that works leaves a session |
| Planning.Team.ForkPrimer | examples/gabriels_workflow_v5/go.py:205-208 | a fork needs the primer registered with a session of its own, and the new name free |
| Planning.Team.Delete | examples/gabriels_workflow_v5/go.py:281-286 | a delete needs a registered name |
| Planning.Planner.Prime | examples/gabriels_workflow_v5/go.py:177-187 | the primer is primed once at most, and has a session from then on |
| Planning.Planner.ForkPrimer | examples/gabriels_workflow_v5/go.py:190-217 | an agent that has flags due is exactly one that is not registered; another backend than the primer's, or a refused fork, means a fresh agent; only the priming can fail it |
| Planning.Planner.Speak | examples/gabriels_workflow_v5/go.py:220-224 | between turns the forks kept track of are exactly the role agents registered |
| Planning.RebuttalIff | examples/gabriels_workflow_v5/go.py:254-268 | owen rebuts if and only if the labels read after a critique neither block nor converge; spectacle has the last word unless the rebuttal is read as blocked |
| Planning.VerdictIsLastReading | examples/gabriels_workflow_v5/go.py:242-272 | the verdict is what the labels of the last reading say, spelled out, unless the rejection was upheld |
| Planning.UnconvergedWithoutRebuttalIff | examples/gabriels_workflow_v5/go.py:257-272 | unconverged without a rebuttal if and only if the labels had converged after the critique, and neither block nor converge when read again |
| Planning.UnconvergedWithoutRebuttalHappens | examples/gabriels_workflow_v5/go.py:257-272 | three readings that do it |
| Planning.Planner.Debate | examples/gabriels_workflow_v5/go.py:242-272 | spectacle and owen speak in turn; how many turns there are, and the verdict, is what the readings decide |
| Planning.Planner.Argue | examples/gabriels_workflow_v5/go.py:254-272 | the same from the critique on |
| Planning.Planner.DiscardForks | examples/gabriels_workflow_v5/go.py:281-286 | afterwards no role agent is registered |
| Planning.LeavesAreDebated | examples/gabriels_workflow_v5/go.py:317-321 | a leaf is criticised unless it is blocked, and gets its brief if and only if it converges |
| Planning.CoursesStartWithTriage | examples/gabriels_workflow_v5/go.py:306-321 | an issue that needs something and has no verdict is triaged first; it is split if and only if its label then says so, and is debated as a leaf otherwise |
| Planning.Planner.Settle | examples/gabriels_workflow_v5/go.py:317-321 | a leaf gets the debate, and the brief, that its readings set |
| Planning.Planner.SplitChildren | examples/gabriels_workflow_v5/go.py:227-239 | the children are those the comments name; none is code 9 |
| Planning.Planner.Take | examples/gabriels_workflow_v5/go.py:299-322 | an issue's turns are the course its readings set, its children are exactly those it names where it is split, code 9 means it is split and names none, and no fork outlives it |
| Planning.Planner.Next | examples/gabriels_workflow_v5/go.py:298-322 | dealing with the first issue of the queue keeps visited issues, queue, turns and readings what the plan says |
| Planning.WalksByGenerations | examples/gabriels_workflow_v5/go.py:295-316 | the plan is breadth first: dealing with all that is queued leaves exactly the children of each, in order, queued |
| Planning.SplitIffAnIssueWas | examples/gabriels_workflow_v5/go.py:306-316 | the plan has split, or split in vain, if and only if an issue it dealt with needed something, was labelled split once triaged, and named no children in the second case |
| Planning.Planner.Run | examples/gabriels_workflow_v5/go.py:295-330 | however the tree grows: success means the breadth-first plan has come to its end within 12 issues, with every turn it sets, and the summary if anything split, and no other; code 9 means that after the same turns a split names no children, or 12 issues are done and more are queued; code 1 if and only if a command failed that must work; at most 85 role turns and one priming in any run |
| Building.MergedContainsBoth | examples/gabriels_workflow_v5/go.py:441-453 | a clean merge contains all that either side contained, and is the side that has it all where there is one |
| Building.Build.RequireCommittedAndPushed | examples/gabriels_workflow_v5/go.py:391-405 | passing means clean and pushed, exit 8 means one of them fails |
| Building.Build.OpenDraft | examples/gabriels_workflow_v5/go.py:346-372 | exit 2 means seven looks found no draft, exit 5 that its branch could not be checked out, exit 1 exactly that a command failed |
| Building.Build.CiGate | examples/gabriels_workflow_v5/go.py:457-468 | a first run that passes is all there is; after one that fails devin has a turn and the second run decides, unless a command failed or work was left unpushed; getting through means the last run passed on the head that is pushed |
| Building.Build.SyncWithMaster | examples/gabriels_workflow_v5/go.py:423-454 | afterwards the branch contains master as compared; unmoved means unchanged, moved means it did not contain it before; the driver's own merge loses no work |
| Building.Build.ReviewerTurn | examples/gabriels_workflow_v5/go.py:485-494 | the code reviewer is only shown a head that is pushed and has passed |
| Building.Build.ReviewRounds | examples/gabriels_workflow_v5/go.py:478-508 | at most three reviews with a devin turn between any two, and none after the first approval; approval leaves a passing pushed head; exit 3 means three reviews and no approval |
| Building.Build.Finish | examples/gabriels_workflow_v5/go.py:535-543 | after the approval one re-gate at most; exit 10 means master is ahead of the head or of what was tested last |
| Building.Build.Run | examples/gabriels_workflow_v5/go.py:516-543 | done means: last CI passed on HEAD, HEAD is the pull request's head, contains master as last fetched, approval was seen; every other exit has its cause, and exit 1 is exactly a failed command; at most 8 CI runs and 3 reviews in any run |
| MakeLists.MakeList | tools/ratchet_gate.py:332-368 | the loop computes the recursive expansion, unreadable and endless names included |
| MakeLists.ReadNamesAreBoundOnce | tools/ratchet_gate.py:339-352 | a name that is read is bound by one line, and that by `:=`; a second binding by any known operator makes it unreadable |
| MakeLists.ReadsWhatMakeSees | tools/ratchet_gate.py:332-368 | make has just what is read, whatever the file leaves open, if and only if the reading is faithful: every name reached is bound above its use by a plain line that is carried out and has a value, nothing above that line may override it and nothing unseen rebind it in between, and no word holds a comment, a split or another spelling of a reference |
| MakeLists.FaithfulIsMade | tools/ratchet_gate.py:332-368 | the one half of it at any line and for any name |
| MakeLists.TidyReadsWhatMakeSees | tools/ratchet_gate.py:335-347 | so a Makefile whose lists are plain and refer only to earlier lines is read as make reads it |
| MakeLists.TidyEnds | tools/ratchet_gate.py:359-367 | there every expansion ends, no deeper than there are lines |
| MakeLists.KeepsItsValue | tools/ratchet_gate.py:339-347 | a name bound once, with no override above, has what it gets on its line until something unseen binds it |
| MakeLists.CertainIsInEveryWorld | tools/ratchet_gate.py:339-347 | the words that are certain of a list, computed line by line and none below a possible override, are those make has whatever the file leaves open |
| MakeLists.CommentsAreRead | tools/ratchet_gate.py:353-359 | a list that is read with what its comment says |
| MakeLists.ForwardReferencesAreRead | tools/ratchet_gate.py:359-367 | a name read above the line that binds it, where make takes the environment's |
| MakeLists.SplitLinesAreRead | tools/ratchet_gate.py:308-310 | a list that is read past an escaped backslash, where make goes on to another line |
| MakeLists.HiddenBindingsAreMissed | tools/ratchet_gate.py:318-329 | a later binding the patterns do not cover |
| MakeLists.OverridesAreMissed | tools/ratchet_gate.py:318-329 | an override they do not cover, above the list, which make keeps to |
| MakeLists.EvalsAreMissed | tools/ratchet_gate.py:318-329 | an eval in another list's value |
| MakeLists.EmptyListsReadOn | tools/ratchet_gate.py:353-358 | an empty list that reads as the words of the line below |
| Ratchet.MakePrereqs | tools/ratchet_gate.py:371-389 | the loop computes a rule's expanded prerequisites, where an unreadable reference adds none |
| Ratchet.OnlyRuleIsRead | tools/ratchet_gate.py:371-381 | a target with one rule, with one colon, has what the words of that rule come to |
| Ratchet.EmptyRulesReadOn | tools/ratchet_gate.py:374-381 | a rule without prerequisites reads as the next line that has any words, be it a rule of the target itself |
| Ratchet.PrerequisitesAreGiven | tools/ratchet_gate.py:381-389 | a name is among them if and only if a word spells it or refers to a readable list that has it; there are none only if a reference leads too deep |
| Ratchet.CheckVersion | tools/ratchet_gate.py:409-430 | no failure if and only if the version stays or rises by one; zero or none counts as one |
| Ratchet.CheckGates | tools/ratchet_gate.py:433-466 | no failure if and only if the expanded list keeps every gate, or the version is reset |
| Ratchet.CheckChains | tools/ratchet_gate.py:469-490 | the same for every protected prerequisite chain |
| Ratchet.Check | tools/ratchet_gate.py:899-944 | these checks together pass exactly the commits that may stand |
| Ratchet.UnchangedPassesIff | tools/ratchet_gate.py:444-460 | a commit that changes nothing passes if and only if its list is readable, or not defined, and nothing leads back to itself |
| Ratchet.UnreadListsNeedAReset | tools/ratchet_gate.py:444-460 | a gate list that begins some line and cannot be read lets no commit pass but one that raises the version |
| Ratchet.StepKeeps | tools/ratchet_gate.py:433-490 | without a reset an accepted commit loses no gate and no prerequisite |
| Ratchet.VersionCountsResets | tools/ratchet_gate.py:409-430 | over any run of accepted commits the version rises by exactly the number of resets |
| Ratchet.NothingIsLost | tools/ratchet_gate.py:433-490 | over any run at one version no gate and no prerequisite is ever lost |
| Ratchet.MakeKeepsEveryGateIff | tools/ratchet_gate.py:433-466 | over such a run, from a list read as make sees it, make keeps every gate if and only if the last Makefile leaves none of them among the words that are read but not certain |
| Ratchet.MakeLosesNoGate | tools/ratchet_gate.py:433-466 | so it loses none where the last list, too, is read as make sees it |
| Ratchet.CommentedOutGatesPass | tools/ratchet_gate.py:433-466 | two Makefiles at one version: the commit is accepted, and make loses a gate it certainly had |
| Ratchet.OverriddenGatesPass | tools/ratchet_gate.py:433-466 | the same with an indented override put above an unchanged list |

## Left out

- Argument parsing, printing, logging, environment and path ladders, `doctor`, prompts and the wording of messages: one-branch claims about text.
- Real subprocesses and the four CLIs' flags: a backend is its contract on session ids, a child is the bytes it writes.
- NFS rename-aside, cross-device inodes, and access that goes around the team lock (`list teams`, an explicit state file inside a team).
- SHA-256 of agent names: the lock path is taken as injective in the name.
- Fairness: a waiter may wait for ever while others run.
- That "busy" always means a turn is running: a reclaimer, or a waiter that has not revalidated yet, answers the probe alike.
- Registries that do not parse, and backends that do not exist, inside the process model: `Orchestrators` has both error paths, the step machine reads registries that are sound. Backend names are compared as stored, and a value of the wrong type under a known key reads as absent.
- The retry loop is one turn after another in `ValidatedTurns` and any number of turns under one agent lock in `Commands`.
- Encodings other than UTF-8, and event lines that are no JSON object: the line parser is a parameter.
- Stdlib JSON: a decoder is a parameter with the contract that it takes something and that an object's own text says where it ends.
- `$ref` resolution, and what keywords beyond type, properties, required, additionalProperties, patternProperties, items, prefixItems and anyOf say: they are one parameter that may only add demands. Older drafts, where `items` may be a list and `$ref` hides its siblings, and metaschema rules for those other keywords.
- Teams.DiscoverIsExact: says nothing of `has_worktree`, a stat beside the walk; permissions that stop a stat are not modelled.
- Planning.Planner.Run: the readings of labels and the issue numbers of a CHILDREN line are parameters; a fork that fails is taken to have created nothing; of a run that fails midway only the bounds are stated.
- Building.Build.Run: asking git for a commit or the state of the clone is taken to work; nobody but devin and the driver moves the branch or the pull request's head, and `make ci` moves neither; the approval may be one for an earlier head, since a merge after it moves the head.
- Ratchet.Check: stands for the checks of version, gates and chains only; the other checks of the same run refuse more commits. A version that is no number, and a variable named like a target, are not modelled.
- MakeLists.ReadsWhatMakeSees: what conditionals, functions, includes and the environment come to is arbitrary rather than computed; variables given on make's command line, `make -e` and target-specific values are not modelled. The recursion limit is a depth of references.
- Ratchet.NothingIsLost: prerequisite chains are compared as they are read; what make runs for them is modelled for the gate list only.
- Schema.PinsKeysIff: with anyOf a branch may shut a pattern's key out again; there one half holds, Schema.ValidHasShape.
- The cleanup of a finished run, the run lock of the driver, and the routing between its two runs: one branch each.
- Coverage, mutation and test-integrity gates, the workflow file checks, the mutation cache and the installer: set comparisons and text matching of the same kind as the modelled gate.
