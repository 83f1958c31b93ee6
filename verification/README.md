# Verified model of the capture client

The client runs on a developer's machine beside a coding agent. Hooks put the
events of a session into a durable outbox, a daemon drains the outbox to a
server, and transcript walkers re-derive the same events from the files the
agent writes. This project models that machinery in Dafny 4.11 and proves what
it is for: that nothing captured is lost silently, that the server's copy does
not depend on how often or in what order things were delivered, and that every
way of looking at a transcript gives one event one number and one id.

`dafny verify dfyconfig.toml` checks the whole project.

## What is modelled

**Outbox, drain and receiver.** `Names.dfy` holds the file names (the
millisecond stamp, the reason tags, the order of a listing), `Spool.dfy` the
three directories with the byte cap and the cached byte total, `Reasons.dfy`
the reason tag, `Drain.dfy` the delivery cycle, `Receiver.dfy` the idempotent
server and `Rollup.dfy` the session rollup. `Delivery.dfy` puts them together
as a protocol: several processes capture, lease, send, hear or miss the
answer, apply verdicts, redrive, evict and crash, one step at a time, and
`NoSilentLoss` speaks of every run of such steps. `CycleIsARun` ties the drain
to the protocol.

**Transcripts.** `Transcript.dfy` turns one record into its events,
`Walker.dfy` numbers them over a whole tree of files, `Numbering.dfy` says
what the numbers and ids mean, `Forks.dfy` counts the copied prefix of a fork
ahead of the walk, `Codex.dfy` holds one event back until its cost is known,
and `Tail.dfy` reads the end of a file in a widening window.

**Hook crash recovery.** `Ledger.dfy` is the markers and the append-only
ledger, `Recovery.dfy` the diff between a ledger and a transcript,
`Recoverer.dfy` one pass over a session and what is left after it, and
`HookRuns.dfy` the interleaving of hooks that may die anywhere with passes
that clear old markers. `Recoverer.FitRecordIsRecovered` joins the two, from
the hook that died to the event in the outbox.

**Session daemons.** `Daemons.dfy` is the daemon, the reconciler and the
reaper over the directory of state files; `DaemonState.dfy` is the protocol
they run over one session's claim and state file.

**Smaller algorithms.** `Resume.dfy` (paging of a resume bundle),
`HookSettings.dfy` (registering hooks in somebody else's settings file),
`FoldSearch.dfy` (the redactor's case-folding gate and its splice),
`Encoding.dfy` (the texts hashed into ids and cursor scopes) and `Utf8.dfy`
(the cut of a text at a byte limit). `Events.dfy` has the data, `Sums.dfy`
sums over directories.

What the source updates in place is a class or a loop here, each method proved
against a function of the old state, and the properties are lemmas about those
functions. Protocols are state machines whose invariant is proved step by step
and then over all runs. Clocks, file contents, parsers, the network's answers
and the liveness of a process are parameters. Strings are byte strings.

## Where a promise does not hold of the code

Each comes with an input that shows it and the condition under which the
promise is kept.

- A redrive publishes and then unlinks without holding the delivery lock.
  Another process that leases the published copy and has it refused again for
  the old reason moves it back onto the file about to be unlinked
  (`Delivery.RedriveLoses`). An unlink is the only step that ever loses an id,
  and exactly when it takes the last copy (`Delivery.StepLosesExactly`); within
  a redrive, exactly when such a move came before it
  (`Delivery.RedriveRaceExact`, `Delivery.LossIsAnUnlink`).
- The cap is trusted from a cached total that rewrites do not adjust. It holds
  exactly while they have added no more than a tenth of the cap and one byte
  since the last measurement (`Spool.CapHoldsExactly`).
- `prefixSeq` tests whether anything was counted where the walk tests whether
  anything was started, and knows nothing of a file reclassified as a
  subagent's (`Forks.ForkPrefixExact`, `Forks.SidechainMiscounts`).
- A walk for one session agrees with the full walk exactly when no file of the
  session uses a stream that another session's file, sorted before it, has
  used (`Numbering.NamedSessionExact`, `Numbering.StrayRecordRenumbers`).
- A prompt stored as a compaction summary, or one that builds no event, is
  accepted by every recovery pass and never recorded (`Recoverer.FitExact`,
  `Recoverer.CompactionPromptNeverHeals`); for what a pass as a whole heals
  see `Recoverer.RecoveryExact`.
- A recovery pass walks one transcript, the last that a settled marker names,
  and clears every settled marker. It walked each marker's own exactly when
  they all name the same (`HookRuns.OwnTranscriptExact`,
  `HookRuns.OtherTranscriptIsDropped`).
- A heartbeat is held back by the pid on disk, and an upgrade in place keeps
  the pid (`DaemonState.BeatHeals`, `DaemonState.UpgradeUnderACloser`).
- A reaper that tries a session's lock holds it for a moment; a daemon that
  starts then takes it for another daemon and gives up
  (`DaemonState.RefusedByADaemon`, `DaemonState.GivesUpToAProbe`).
- The reaper takes a held lock for a live daemon; the reconciler does not ask,
  and closes the session of a lock-holding daemon with a stale heartbeat once
  its owner is gone (`Daemons.PassesCloseTheRest`).
- Resume pages by sequence number, but a subagent numbers its own stream under
  the same session: a page that ends between two rows of one number skips the
  second (`Resume.PagesReassembleExactly`, `Resume.SharedNumberHidesALine`).
- `Unregister` also drops groups and events that were empty before
  (`HookSettings.RoundTripExact`), and keys of a group or an entry that the
  settings type does not name are not written back at all.

Three conditions are exact too, but the inputs that break them do not occur. A
rollup takes the zero time for "not set" (`Rollup.StartSettledExactly`); the
receiver refuses events without a time. The base name of a file is cut at the
first dot (`Names.NameSpellsId`, `Names.MovedCollideExactly`,
`Spool.MovesKeepBoth`); the ids the client mints have none, and the protocol
in `Delivery.dfy` admits ids without one. A NUL in a session id would let two
events share an id (`Encoding.NulInSessionCollides`); session ids hold none.

## Model

| member | source | states |
|---|---|---|
| `Names.MoveKeepsBaseName` | internal/spool/spool.go:829-856 | moving a file, under any tag, keeps its base name and the id its name spells, so tags never pile up |
| `Names.NameSpellsId` | internal/spool/spool.go:381-391 | the published name spells the item's own id exactly when the id has no dot, and is then its own base name |
| `Names.MovedCollideExactly` | internal/spool/spool.go:829-856 | two published files are moved onto one name exactly when their milliseconds are the same and their ids agree up to a dot; ids without a dot, which is what the client mints, never collide |
| `Names.NamesSortByTime` | internal/spool/spool.go:381-383 | before the year 2286 a name with an earlier millisecond stamp sorts first, whatever the ids: the listing is oldest first |
| `Names.ListingSorted` | internal/spool/spool.go:774-790 | the listing of a directory is strictly sorted, so each name is read once and the oldest first |
| `Reasons.TagIsCanonical` | internal/spool/spool.go:859-885 | a reason tag is between one and 48 lower-case letters, digits and single underscores, none at either end, and holds no dot |
| `Reasons.TagIdempotent` | internal/spool/spool.go:859-885 | tagging a tag changes nothing |
| `Reasons.ReasonTag` | internal/spool/spool.go:863-885 | the loop over the reason computes the canonical tag |
| `Spool.EvictShortestPrefix` | internal/spool/spool.go:918-924 | eviction takes exactly the shortest oldest-first prefix that makes the write fit, or everything |
| `Spool.RewriteKeepsBound` | internal/spool/spool.go:647-657 | rewriting an item in place moves the real total and the cached total apart by no more than the growth it records |
| `Spool.MoveOutKeepsBound` | internal/spool/spool.go:829-844 | moving a file out keeps the real pending bytes within the cached total plus the recorded growth |
| `Spool.AckKeepsBound` | internal/spool/spool.go:479-492 | so does an acknowledgement, from any directory |
| `Spool.LeaseKeepsBound` | internal/spool/spool.go:400-427 | so does a lease that quarantines torn files on the way |
| `Spool.RedriveKeepsBound` | internal/spool/spool.go:682-722 | so does a redrive |
| `Spool.AddRespectsCap` | internal/spool/spool.go:360-394 | after every admitted Add the real pending bytes are at most the cap whenever rewrites grew the files by no more than a tenth of it and one byte since the last measurement |
| `Spool.CapHoldsExactly` | internal/spool/spool.go:898-932 | every admitted Add, in any state and of any item, leaves at most the cap exactly when that growth is within a tenth of the cap and one byte (or the cap is zero) |
| `Spool.CapOverRuns` | internal/spool/spool.go:898-944 | over every run of one process from an empty outbox the real pending bytes are within the cached total plus the growth since the last measurement, and the cap holds within the slack |
| `Spool.LeasePending` | internal/spool/spool.go:400-427 | a lease takes the torn files it meets out of pending and nothing else |
| `Spool.LeaseHandsOut` | internal/spool/spool.go:400-427 | a lease hands out exactly the readable pending files among the names it looks at, each as it is on disk |
| `Spool.MovesKeepBoth` | internal/spool/spool.go:829-856 | two different files moved to one directory under one tag are both kept unless their milliseconds are the same and their ids agree up to a dot |
| `Spool.Outbox.constructor` | internal/spool/spool.go:307-334 | a new outbox is empty and unmeasured |
| `Spool.Outbox.AddItem` | internal/spool/spool.go:360-394 | Add admits by disk and cap and publishes under the stamped name; the byte bound holds, and the cap when the growth is within the slack |
| `Spool.Outbox.EvictOldest` | internal/spool/spool.go:918-924 | the eviction loop removes the shortest sufficient prefix, and its running total is the real one |
| `Spool.Outbox.ScanCapacity` | internal/spool/spool.go:904-931 | the scan path leaves the cached total equal to the real one and counts what it dropped |
| `Spool.Outbox.EnforceCapacity` | internal/spool/spool.go:898-932 | the cached total is trusted below nine tenths of the cap, else the directory is scanned |
| `Spool.Outbox.MoveFile` | internal/spool/spool.go:829-844 | moves one file between directories under its tagged base name and adjusts the cached total |
| `Spool.Outbox.AdjustPendingBytes` | internal/spool/spool.go:934-944 | the cached total never goes below zero |
| `Spool.Outbox.WriteBack` | internal/spool/spool.go:647-657 | rewrite publishes the leased item under its old name, whether or not the file is still there, and leaves the cached total alone |
| `Spool.Outbox.AckItem` | internal/spool/spool.go:479-492 | an acknowledged file is removed from the directory it was leased from and nothing else is |
| `Spool.Outbox.QuarantineItem` | internal/spool/spool.go:640-644 | a rejected item leaves pending for the quarantine and is counted |
| `Spool.Outbox.UndecidedItem` | internal/spool/spool.go:627-634 | an undecided item is parked at the limit, else rewritten with one more silent delivery, and the growth is what that rewrite added |
| `Spool.Outbox.FailItem` | internal/spool/spool.go:610-617 | a failed item is quarantined at the limit of attempts, else rewritten with one more, and the growth is what that rewrite added |
| `Spool.Outbox.LeaseBatch` | internal/spool/spool.go:400-427 | the lease loop hands out the oldest readable files and quarantines the torn ones |
| `Spool.Outbox.RedriveFile` | internal/spool/spool.go:690-718 | a redriven file is published in pending under its base name with its counters reset, then unlinked; it says it moved one exactly when the file was there and readable |
| `Spool.Outbox.RedriveFrom` | internal/spool/spool.go:682-722 | the redrive of a directory is the redrive of each of its files in order, and its count is the number of readable files the directory held |
| `Spool.Outbox.Stats` | internal/spool/spool.go:729-760 | a measurement resets the cached total to the real one |
| `Drain.FitsIsLongest` | internal/drain/drain.go:354-364 | the batch under the byte limit is the longest prefix that fits, and always holds the first item |
| `Drain.FailedSendKeepsItems` | internal/drain/drain.go:272-286 | a failed send moves and changes no readable file anywhere; what was torn among the files it leased is in quarantine, and without any torn file nothing changes at all |
| `Drain.VerdictUsesWork` | internal/drain/drain.go:371-433 | every verdict on a leased item, silence included, uses up some of its patience or takes it out of pending |
| `Drain.CycleUsesWork` | internal/drain/drain.go:226-299 | an answered cycle over a non-empty queue strictly lowers the sum of patience |
| `Drain.QueueDrains` | internal/drain/drain.go:226-299 | with no new captures and a server that answers each cycle in any way at all, pending is empty after at most the sum of the items' remaining patience in cycles |
| `Drain.Drainer.LimitBytes` | internal/drain/drain.go:354-364 | the loop computes that prefix |
| `Drain.FatesPartition` | internal/drain/drain.go:371-433 | every item of a batch meets exactly one fate: accepted, refused, waiting or given up |
| `Drain.Drainer.ApplyVerdict` | internal/drain/drain.go:371-433 | the loop over the batch applies each verdict, raises each counter by the number of items that met its fate, and accounts for the bytes the rewrites added |
| `Drain.Drainer.Transmit` | internal/drain/drain.go:262-298 | only an answered send is a verdict; a failed or cancelled one leaves outbox, byte growth and verdict counters as they were |
| `Drain.Drainer.RunOnce` | internal/drain/drain.go:226-299 | one cycle is lease, enrich, cut, send and apply, and nothing else |
| `Receiver.OneVerdictEach` | internal/receiver/receiver.go:225-262 | each item of a request gets exactly one verdict, accepted or rejected |
| `Receiver.IngestKeeps` | internal/receiver/receiver.go:225-262 | the arrival list stays the stored ids, each once, and a stored event never changes |
| `Receiver.FirstDeliveryStays` | internal/receiver/receiver.go:225-262 | the event stored under an id is the first storable one delivered under it, through any later redelivery |
| `Receiver.StoreIsWhatIsBrought` | internal/receiver/receiver.go:225-262 | with one event per id the store is a function of the ids a history brings |
| `Receiver.ExactlyOnce` | internal/receiver/receiver.go:225-262 | two histories that bring the same ids, redelivered and reordered at will, leave the same store, each id arriving once |
| `Receiver.Ingest.IngestBatch` | internal/receiver/receiver.go:225-288 | the loop over a request computes that store and the response |
| `Receiver.Ingest.Sessions` | internal/receiver/receiver.go:379-392 | the stored events by session, each session a permutation of its own, in order of sequence and stable |
| `Receiver.StableSortSorts` | internal/receiver/receiver.go:388-390 | the sort sorts, permutes, and keeps the order of equal numbers |
| `Rollup.FoldAnyOrder` | internal/event/event.go:428-484 | folding a session's events in any order gives the same counters, usage and redaction sums, end time and harness versions, and the same start time when no event is stamped with the zero time |
| `Rollup.StartSettledExactly` | internal/event/event.go:445-447 | no order of the events changes the start time exactly when the session already started before the zero time, or no event is at it, or none is after it, or one is before it |
| `Rollup.SpanIsMinMax` | internal/event/event.go:445-450 | the start is an event's time and no event is earlier; the end is an event's time and no event is later, or the zero time when none is after that |
| `Rollup.OfSessionAnyOrder` | internal/receiver/receiver.go:379-392 | a session's events do not depend on the order its ids arrived in |
| `Rollup.RollupSurvivesRedelivery` | internal/event/event.go:428-484 | two delivery histories with the same ids give every session the same rollup |
| `Rollup.Tally.Apply` | internal/event/event.go:428-484 | the method updates the session to the fold of one more event |
| `Delivery.StepKeeps` | internal/spool/spool.go:360-492 | every step leaves names and items in accord, and keeps an id safe - stored, evicted, or held by a file no redrive is about to unlink - unless it moves a file onto a name of that very id which a redrive is about to unlink |
| `Delivery.StepLosesExactly` | internal/spool/spool.go:360-722 | in any tidy state one kind of step loses an id and exactly then: the unlink of the last file that holds it, with the server and the eviction record silent |
| `Delivery.NoSilentLoss` | internal/drain/drain.go:226-299 | in every run of captures, leases, lost and seen responses, verdicts in any order by several processes, redrives, evictions and crashes in which no move lands on a file of that id a redrive is about to unlink, an added id is in pending, quarantine, parked, the server's store or the eviction record |
| `Delivery.LossIsAnUnlink` | internal/drain/drain.go:226-299 | in every run at all, what was heard accepted is stored, and an added id that is nowhere was lost by such an unlink after such a move |
| `Delivery.AckKeeps` | internal/drain/drain.go:371-433 | an item leaves by acknowledgement only once the server has stored its id |
| `Delivery.CycleIsARun` | internal/drain/drain.go:226-299 | a drain cycle over the outbox is a run of protocol steps, so what holds over runs holds of the drain |
| `Delivery.RedriveRaceExact` | internal/spool/spool.go:682-722 | in any state with a file published and not yet unlinked whose id is safe, one more step of any process and then the unlink lose the id exactly when that step moves the republished copy back onto the file and no other copy exists |
| `Delivery.RedriveLoses` | internal/spool/spool.go:682-722 | from any tidy state, with no lease from before: publish, a lease by another process, its rejection under the old reason, unlink; the id is lost exactly when nothing else answers for it |
| `Encoding.ScopeTextInjective` | server/api/cursor.go:103-118 | the length-prefixed text hashed by scopeOf determines the sequence of parts |
| `Encoding.WriteScope` | server/api/cursor.go:107-118 | the loop writes that text |
| `Encoding.IdTextInjective` | internal/event/event.go:351-361 | without a NUL in session id or type, the text hashed into an event id determines all four fields |
| `Encoding.NulInSessionCollides` | internal/event/event.go:351-361 | with a NUL in a session id two events share a text, whatever their types and numbers |
| `Utf8.CapIsLongestPrefix` | internal/backfill/caps.go:28-37 | on well-formed UTF-8 the cut is the longest well-formed prefix within the limit, at most three bytes short of it |
| `Utf8.CapIdempotent` | internal/backfill/caps.go:28-37 | cutting a cut text again changes nothing |
| `Utf8.TruncateAgrees` | internal/event/event.go:495-506 | the rollup's truncate and CapText make the same cut exactly at a positive limit or on the empty text |
| `Utf8.CapText` | internal/backfill/caps.go:28-37 | the loop finds the cut |
| `Utf8.Truncate` | internal/event/event.go:495-503 | the loop finds the cut |
| `Transcript.UsageBilledOnce` | internal/backfill/backfill.go:1130-1190 | a record's usage is on exactly one of its events, its turn; a compaction carries none |
| `Transcript.BlockPartsOf` | internal/backfill/backfill.go:1192-1231 | every tool call and tool result becomes an event under its own tool id and no other does |
| `Transcript.BuildRecord` | internal/backfill/backfill.go:1115-1231 | build, with the usage handed to the first event that takes it |
| `Walker.Walk.Push` | internal/backfill/backfill.go:1303-1345 | a number is taken and an id made for every event, muted or not; the totals count what was emitted |
| `Walker.Walk.Record` | internal/backfill/backfill.go:1034-1091 | a record emits the start of its stream once, then its parts, under consecutive numbers |
| `Walker.Walk.Line` | internal/backfill/backfill.go:980-1091 | one line: ignored, unattributed, reclassified, skipped, clockless or walked, in the order the code asks |
| `Walker.Walk.File` | internal/backfill/backfill.go:856-949 | a file held back by the journal or the window takes its numbers and emits nothing; a journal file is skipped |
| `Walker.Walk.Run` | internal/backfill/backfill.go:193-228 | whatever the filters, what is emitted is exactly what they let through of the one unfiltered walk, in order |
| `Walker.KeptAppend` | internal/backfill/backfill.go:1326-1334 | filtering is event by event |
| `Numbering.NumbersArePositions` | internal/backfill/backfill.go:1303-1327 | in every walk an event's number is the count of earlier events of its stream |
| `Numbering.IdsAreDistinct` | internal/backfill/backfill.go:1311-1327 | no walk gives two events one id, given no NUL in session ids and no bar in agent ids |
| `Numbering.WideningOnlyAdds` | internal/backfill/backfill.go:1303-1310 | a wider window, journal or choice of records emits the same events under the same ids and more |
| `Numbering.NamedSessionAgrees` | internal/backfill/backfill.go:217-224 | a walk for one session gives its files the very events of the full walk when every record carries the session its file's path names |
| `Numbering.NamedSessionExact` | internal/backfill/backfill.go:217-224 | for any files: the named walk gives the very events of the full walk exactly when no file of the session uses a stream that another session's file, walked before it, has used |
| `Numbering.StrayRecordRenumbers` | internal/backfill/backfill.go:217-224 | a record of the session in another session's file shifts the numbers when that file sorts first, and does not when it sorts last |
| `Forks.PrefixSeq` | internal/backfill/backfill.go:818-854 | the loop counts the parts of the lines before the first the parent does not hold, by the skips it mirrors |
| `Forks.ForkPrefixExact` | internal/backfill/backfill.go:813-854 | on an unused stream with one session id in the prefix, the precomputed number is the number the walk gives the last inherited event exactly when no sidechain record drifts |
| `Forks.ForkPrefixAgrees` | internal/backfill/backfill.go:813-854 | without sidechain records in the prefix the two always agree |
| `Forks.SidechainMiscounts` | internal/backfill/backfill.go:840-845 | a sidechain record before anything was counted is counted and never walked |
| `Forks.WalkGrows` | internal/backfill/backfill.go:905-913 | the walk of a file begins with the events of any of its prefixes |
| `Forks.SharedUuids` | internal/backfill/backfill.go:776-792 | the loop leaves exactly the uuids every member holds |
| `Forks.PromptLeaks` | internal/backfill/backfill.go:801-811 | the file's first-turn id is carried outside the shared prefix |
| `Forks.OneParent` | internal/backfill/backfill.go:691-705 | whatever order a fork group is met in it has one parent, a file that rewrote nothing if there is one |
| `Forks.Parent` | internal/backfill/backfill.go:694-705 | the member that precedes all others |
| `Codex.CanonicalSplitsInput` | internal/backfill/codex.go:65-78 | for every report: uncached and cached input add up to the reported input, unless more was cached than was input; only a report of nothing is dropped |
| `Codex.BilledCarriesFirstReport` | internal/backfill/codex.go:379-431 | every event carries the first report between it and the next event and is otherwise the event emitted at once |
| `Codex.HoldBackRefines` | internal/backfill/codex.go:379-402 | holding one event back changes no event, order, number, ordinal or id |
| `Codex.RolloutRefines` | internal/backfill/codex.go:237-325 | so over every rollout |
| `Codex.NoReportBilledTwice` | internal/backfill/codex.go:419-431 | the costs the emitted events carry are, in order, the reports that directly follow an event, each once |
| `Codex.Rollout.AttachUsage` | internal/backfill/codex.go:419-431 | the first report wins; a repeat before the next event is dropped |
| `Codex.Rollout.Emit` | internal/backfill/codex.go:395-402 | emitting releases the event before and holds this one |
| `Codex.Rollout.Flush` | internal/backfill/codex.go:403-417 | flushing releases the held event under the next ordinal |
| `Codex.Rollout.Push` | internal/backfill/codex.go:475-508 | numbers advance for a muted file too |
| `Codex.Rollout.Line` | internal/backfill/codex.go:237-325 | one line of a rollout |
| `Codex.Rollout.File` | internal/backfill/codex.go:201-344 | a rollout read to its end releases all its events |
| `Codex.Lineage` | internal/backfill/codex.go:183-199 | the session a rollout is filed under is the top of its line of ancestors, each met once: a root, a session this machine does not hold, or one whose parent is already on the line |
| `Codex.SubagentFollowsParent` | internal/backfill/codex.go:183-199 | a subagent is filed under its parent's session unless it is its own ancestor |
| `Tail.TailLines` | internal/backfill/head.go:360-408 | the bytes of the window as whole trimmed lines, the byte before it deciding whether the first is whole |
| `Tail.SplitLines` | internal/backfill/head.go:401-407 | the loop splits, trims and drops blanks |
| `Tail.WindowIsSuffix` | internal/backfill/head.go:358-408 | the lines of any window are a suffix of the file's lines, all of them when the window reached the start |
| `Tail.WindowShowsItsRecords` | internal/backfill/head.go:372-400 | no record inside the window is left out, the one the window opens on included |
| `Tail.ScanSuffix` | internal/backfill/head.go:249-284 | what a suffix finds is what the whole holds, but for a prompt above it |
| `Tail.LastAssistantIn` | internal/backfill/head.go:252-284 | the backward scan finds the last model call and the prompts around it |
| `Tail.PromptBefore` | internal/backfill/head.go:345-356 | the nearest prompt above |
| `Tail.PromptAfter` | internal/backfill/head.go:319-330 | the nearest prompt below |
| `Tail.LastAssistantRecord` | internal/backfill/head.go:216-247 | the widening read ends and agrees with a scan of the whole file: same record, text, usage and prompt after, and the same prompt when it names one or the file fits |
| `Tail.LastTimestamp` | internal/backfill/head.go:410-431 | a timestamp found in the tail is the whole file's last |
| `Ledger.MarkerNameKeepsTime` | internal/capture/ledger.go:107-113 | a marker's name dates it, torn or whole |
| `Ledger.Store.Inflight` | internal/capture/ledger.go:96-113 | a marker is a file of its own |
| `Ledger.Store.Append` | internal/capture/ledger.go:115-144 | the ledger only grows, one session at a time |
| `Ledger.Store.Read` | internal/capture/ledger.go:148-206 | the sets read back say of every prompt, call, result and answer whether a line vouches for it |
| `Ledger.Store.ClearInflightBefore` | internal/capture/ledger.go:245-262 | markers before the cutoff go, younger ones and other sessions' stay |
| `Ledger.CaptureHook` | cmd/loop-sessions/hook.go:228-276 | a hook that got everything into the outbox leaves its lines and no marker, one that failed leaves its marker and no line, and a marker or a ledger line that cannot be written stops nothing |
| `Recovery.MissingToolRecords` | cmd/loop-sessions/recover.go:272-291 | accepts exactly the records with a tool call or result no line vouches for |
| `Recovery.MissingRecords` | cmd/loop-sessions/recover.go:237-263 | accepts exactly those and the prompts and last answers of turns no line vouches for |
| `Recovery.LossIsUnmet` | cmd/loop-sessions/recover.go:231-263 | the code's three kinds of loss are together the unmet needs |
| `Recoverer.FitExact` | internal/backfill/backfill.go:1115-1231 | a record delivers everything the diff can ask of it exactly when it is no compaction, says something, has a uuid, and its tool blocks are of its own kind |
| `Recoverer.PassExact` | cmd/loop-sessions/recover.go:187-213 | a pass leaves nothing lost exactly when it emits an event for each thing lost |
| `Recoverer.RecoveryExact` | cmd/loop-sessions/recover.go:138-214 | after a pass nothing is lost, and a second diff accepts nothing, exactly when the walk reads for every lost need an accepted record whose events meet it |
| `Recoverer.WantedIsMet` | cmd/loop-sessions/recover.go:138-214 | whatever the transcripts want that the walk can read back is on the ledger after the pass, one need at a time |
| `Recoverer.RecoveryCompletes` | cmd/loop-sessions/recover.go:138-214 | when the records the ledger lacks something of are walked and fit (a subagent's in their tools), one pass covers every prompt, call, result and final answer, and a second accepts nothing; other records may be anything |
| `Recoverer.RecoverTwice` | cmd/loop-sessions/recover.go:138-214 | a second recoverSession after one that found nothing missing, or ran to its end over records that give back all that was lost, finds nothing missing and emits nothing |
| `Recoverer.FewerAgents` | cmd/loop-sessions/recover.go:216-229 | what a transcript no longer named by a marker wants is not asked for |
| `Recoverer.NeverHeals` | cmd/loop-sessions/recover.go:187-213 | what no event of the whole walk meets stays lost and its record is accepted again by every pass |
| `Recoverer.CompactionPromptNeverHeals` | internal/backfill/backfill.go:1119-1128 | a prompt all of whose user records are compaction summaries or silent stays lost after every pass and is accepted again |
| `Recoverer.AgentTranscripts` | cmd/loop-sessions/recover.go:218-229 | the subagent files settled markers name, each once |
| `Recoverer.JudgeMarkers` | cmd/loop-sessions/recover.go:82-124 | one young marker holds its session back; else the last transcript a settled marker names is walked |
| `Recoverer.Diff` | cmd/loop-sessions/recover.go:164-173 | the main diff and the tool half of every subagent's |
| `Recoverer.WalkLost` | cmd/loop-sessions/recover.go:187-199 | the walk over exactly the accepted records of the session, up to the first the outbox refuses |
| `Recoverer.RecoverSession` | cmd/loop-sessions/recover.go:138-214 | what was emitted is recorded; markers before the cutoff are cleared by a whole pass, an empty diff, an exclusion or a missing transcript and by nothing else |
| `Recoverer.PassCompletes` | cmd/loop-sessions/recover.go:138-214 | a pass that found nothing missing, or ran to its end, has met all that its transcripts want and the walk can read back: what the protocol of hooks and passes asks of a finished pass |
| `Recoverer.FitRecordIsRecovered` | cmd/loop-sessions/recover.go:71-214 | in every interleaving, once a pass over a transcript has cleared a marker, whatever a walked and fit record of that transcript shows is in the outbox, and on the ledger where the pass could write it |
| `HookRuns.StepKeeps` | cmd/loop-sessions/hook.go:228-276 | every step of hooks and passes keeps: markers, outbox and ledger lines stand as the phases say, and what a pass read of an old hook is final |
| `HookRuns.LostEventIsLookedFor` | cmd/loop-sessions/recover.go:71-214 | in every interleaving a marked hook with an event outside the outbox keeps its marker until a pass that began after its end settled it: one that walked a transcript and met all it set out for, or had none to walk |
| `HookRuns.LostEventIsRecovered` | cmd/loop-sessions/recover.go:71-214 | what a marked hook would have captured is in the outbox once its marker is gone, unless the pass that settled it walked no transcript that shows it |
| `HookRuns.OwnTranscriptExact` | cmd/loop-sessions/recover.go:82-135 | a pass that takes its transcript from the markers walks the own transcript of every marker it clears exactly when they all name one; each one's subagent file was read unless it was gone |
| `HookRuns.OtherTranscriptIsDropped` | cmd/loop-sessions/recover.go:88-102 | two markers that name different transcripts: a run that walks the later one's, clears both, and leaves the other's prompt nowhere |
| `HookRuns.OnlyOldMarkersGo` | internal/capture/ledger.go:237-262 | a marker disappears only by its own hook, all written, or older than the grace with its hook over |
| `DaemonState.OneClaim` | internal/daemon/daemon.go:255-270 | at most one process holds a session's claim, whatever the interleaving |
| `DaemonState.RefusedByADaemon` | internal/daemon/daemon.go:255-270 | a starting daemon refused the claim is refused by another daemon exactly when the lock is a daemon's; under a reaper's probe nobody holds the claim |
| `DaemonState.GivesUpToAProbe` | internal/daemon/daemon.go:756-768 | a run in which a daemon gives up to a reaper's probe of the lock and no daemon is left for the open session |
| `DaemonState.ReopenedOnlyByAnother` | internal/daemon/daemon.go:484-496 | a finalized state is reopened only by the claim's holder and never by the life it describes |
| `DaemonState.StateDescribesItsWriter` | internal/daemon/daemon.go:498-510 | the state file appears with a daemon's start, never goes away, and describes a daemon that wrote it |
| `DaemonState.CurrentBuildSpared` | internal/daemon/daemon.go:698-750 | the reaper finalizes a state of its own build only once its daemon is gone |
| `DaemonState.BeatHeals` | internal/daemon/daemon.go:484-496 | a heartbeat restores the live state exactly when the state on disk was not finalized under its own pid |
| `DaemonState.UpgradeUnderACloser` | internal/daemon/daemon.go:484-496 | an upgrade in place between a reaper's read and its write leaves a live daemon's state finalized for good |
| `DaemonState.StepKeeps` | internal/daemon/daemon.go:194-270 | every step keeps the claim exclusive and every state read or written somebody's own |
| `Daemons.Directory.Reconcile` | internal/daemon/daemon.go:536-585 | closes exactly the sessions whose daemon and owner are both gone and reports those whose daemon is |
| `Daemons.Directory.StopStale` | internal/daemon/daemon.go:698-754 | signals and closes daemons of another build, closes dead ones under a live owner, touches no other |
| `Daemons.Daemon.constructor` | internal/daemon/daemon.go:194-243 | starting writes a live state over whatever was there |
| `Daemons.Daemon.Beat` | internal/daemon/daemon.go:484-496 | a heartbeat is not written over a state finalized under this pid |
| `Daemons.Daemon.Finalize` | internal/daemon/daemon.go:426-431 | the end is written unconditionally |
| `Daemons.ReconcileIdempotent` | internal/daemon/daemon.go:528-585 | a second pass at the same moment changes nothing, and no running session is closed |
| `Daemons.PassesCloseTheRest` | internal/daemon/daemon.go:528-754 | after both passes, in either order, exactly the sessions live on this build or not to be signalled are open, where a held lock speaks for a daemon with a stale heartbeat only while its owner lives |
| `Daemons.DrainBacklog` | internal/daemon/daemon.go:459-482 | the shutdown drain ends within its bound and its deadline, and early only on a cycle that moved nothing |
| `Resume.ScanTranscript` | server/api/resume.go:340-364 | a page holds the original records of the rows it covers and fits the budget or is one line |
| `Resume.HandleResume` | server/api/resume.go:127-202 | a page is complete exactly when nothing follows, else its cursor starts after its last row under the same fork |
| `Resume.PagesReassembleExactly` | server/api/resume.go:145-202 | under every page size and byte budget the pages put together are the conversation exactly when no main-stream record shares its number with the row before it |
| `Resume.PagesReassemble` | server/api/resume.go:145-202 | over strictly increasing numbers they always are |
| `Resume.SharedNumberHidesALine` | server/api/resume.go:145-202 | a main record numbered like the subagent row a one-row page ends on is on no page, whatever the two say |
| `Resume.FollowAll` | server/api/resume.go:182-202 | following next_cursor ends, with every page under one fork id |
| `HookSettings.Settings.Preview` | internal/hooks/hooks.go:143-176 | the events to add, already set and to update |
| `HookSettings.Settings.Register` | internal/hooks/hooks.go:185-222 | refuses a relative binary, else brings every event's entry up to date or adds it |
| `HookSettings.Settings.Refresh` | internal/hooks/hooks.go:233-259 | rewrites the entries that are there |
| `HookSettings.Settings.Unregister` | internal/hooks/hooks.go:262-296 | removes every entry with the marker, then empty groups and events |
| `HookSettings.RegisterKeepsEveryForeign` | internal/hooks/hooks.go:185-222 | every foreign entry stays in its group and in order |
| `HookSettings.RegisterIdempotent` | internal/hooks/hooks.go:185-222 | after registration nothing is left to add or update |
| `HookSettings.RefreshAddsNothing` | internal/hooks/hooks.go:224-259 | a refresh adds no event, group or entry and changes no command |
| `HookSettings.UnregisterLeavesNoneOfOurs` | internal/hooks/hooks.go:262-296 | nothing of ours is left |
| `HookSettings.UnregisterUndoesRegister` | internal/hooks/hooks.go:262-296 | removal leaves the same hooks whether or not registration came before it |
| `HookSettings.RoundTripExact` | internal/hooks/hooks.go:185-296 | registering and unregistering restores the hooks exactly when they held none of ours, no empty group and no event with an empty list |
| `HookSettings.AppendToGroup` | internal/hooks/hooks.go:343-351 | the first group without a matcher takes the entry, else a new one |
| `HookSettings.FindOurs` | internal/hooks/hooks.go:324-333 | the first entry with exactly the command |
| `FoldSearch.ContainsFold` | internal/scrub/scrub.go:514-558 | true exactly when some window of the text is the needle under ASCII folding |
| `FoldSearch.ScanTwo` | internal/scrub/scrub.go:538-558 | two cursors, one a case, miss nothing and end |
| `FoldSearch.IndexByteFrom` | internal/scrub/scrub.go:564-573 | the first byte of the kind between from and limit |
| `FoldSearch.Apply` | internal/scrub/scrub.go:325-357 | accepted matches are replaced, everything else copied as it was, and hits counted |
| `FoldSearch.SpliceAccounts` | internal/scrub/scrub.go:325-357 | the text shrinks by exactly what was accepted, less what replaced it |

## Left out

- JSON and base64 text: records, items, settings, cursors and state files are parsed values; an item's size is a function of the item.
- Temporary files and their sweep, permissions and file-system errors: a rename is atomic, a read of a file that is there succeeds.
- The disk guard: whether there is room is a parameter of an Add.
- The floating-point nine tenths of the cap is compared in integers.
- Backoff, jitter, waits and the last-success and last-error fields of the outbox's state.
- Lost updates of the outbox's state file by concurrent processes, except that in `Delivery` the cached total may drift to any value at any step.
- HTTP: a send is committed or not, its answer seen or not; the flusher's own totals and its report are not modelled.
- SHA-256 and random ids: what is proved is that the hashed texts differ.
- Unicode: white space, letter case and line splitting are those of ASCII. The redactor's needles are ASCII, for which the source's Unicode folding of a window of the same byte length is ASCII folding.
- The redactor's patterns, entropy test and credential vetting: a rule's matches are given in order, accepted or not. Redaction inside the walkers is left out; muting decides only what is emitted.
- Of an event, the model name, entry point, titles, workflow id and tool structure; tool input and output are carried as text, and a result spooled beside the transcript is not read.
- The walkers' advisory counts and progress reports, an error of their consumer (but see the outbox that refuses an event in `Recoverer.WalkLost`), and a line past the scanner's limit.
- Discovery: which files there are, which kind and session a path names, and the head scan are given with each file; so are a file's uuids and prompt ids for `Forks.SharedUuids` and `Forks.PromptLeaks`.
- Forks.PrefixSeq: a file that cannot be opened, which the source counts as no prefix, is not modelled.
- A record stamped with the year 1, Go's zero time, which the clock takes for no time: `Forks.ForkPrefixExact` speaks of prefixes without one where there are sidechain records.
- Recoverer.RecoveryCompletes: speaks of a pass the outbox lets finish; an interrupted pass records what it emitted and keeps its markers (`Recoverer.RecoverSession`).
- HookRuns: one session; hooks are taken to finish or die within the grace, as the source assumes. What a pass's transcripts show is what they show when it reads them.
- Delivery.NoSilentLoss: of ids without a dot, which is what the client mints.
- Sweeping of old ledgers, markers and state files, end markers, and the count of empty starts.
- A signal the reaper sends is not followed to the daemon's exit.
- Daemons.DrainBacklog: the deadline is a number of cycles.
- Two session ids that sanitize to one file name.
- Health, status, installation, upgrade download, repair lists, the manifest of a resume bundle and all other request handlers.
- Resume.HandleResume: authorization and the audit of reads; the store is the session's rows in the order the query returns them.
- Hooks of a settings file are modelled as one map; the rest of the file, the order of keys and the plan's count of foreign hooks are not.
