# Verified model of the gateway's stateful protocols

The gateway connects chat platforms to local Chord processes. Between a message on
a socket and an answer in a chat lie a dozen small protocols that keep state: an
ingress store with indexes, deduplication and route barriers, a scheduler on top of
it, worker pools, a receipt queue, a crash-safe file protocol, a resumable Discord
connection, an image assembler, token buckets, a text segmenter, and editors of a YAML
graph. Their correctness is a matter of whole runs, not of single calls. This project
models them in Dafny and proves what they promise.

How the modules are built:

- What the program updates in place is a class whose methods do one critical section,
  loop or channel operation each. Their contracts equate the new state with a function
  of the old one; the promises are proved about those functions, over all runs.
- Concurrency is interleaving: a locked region or a channel operation is one step, and
  a theorem about every sequence of enabled steps is a theorem about every schedule.
- The environment is a parameter: which writes fail, which messages arrive, what a
  commit callback answers, which random identifiers are drawn (never one twice), and a
  clock that does not run backwards. SHA-256, base64, JSON sizes and an adapter's
  renderer are functions handed in.
- Go strings are sequences of bytes, so UTF-8 (RFC 3629, sections 3 and 4) is modelled
  and not assumed.

| file | models |
|---|---|
| `Utf8`, `TextSend`, `TextSegments`, `TextTargets` | rune boundaries; splitting and truncating a text to a platform's budget; sending its segments in turn |
| `SessionTransfers` | the two files that keep session transfers guarded across crashes |
| `IngressTypes`, `IngressTally`, `IngressSpec`, `IngressInvariant`, `IngressRuns` | the ingress store as one set of records, its invariant, and what follows over runs |
| `IngressAccepted`, `IngressChanges` | when the store takes a message, the answers it gives otherwise, and what updates and route changes leave |
| `IngressIndex`, `IngressStore` | the store as it is kept: indexes, counters, compacted history |
| `Scheduler`, `Dispatching`, `RouteVisits`, `ControlPriority` | dispatching each chat's pending records |
| `Normalizer`, `OutboundDispatcher` | the two worker pools |
| `InputReceipts`, `InputCauses` | receipts of process inputs, the worker that commits them, and where every receipt comes from |
| `DiscordResume`, `DiscordTranscripts` | one Discord gateway connection, chains of resumed ones, and what an undisturbed connection delivers |
| `YamlMerge`, `YamlMergeKeys`, `YamlDedupe` | the effective entries of a configuration mapping, its merge keys and its duplicate keys |
| `YamlCopy`, `YamlEffective`, `YamlAliasKeys` | copying a configuration graph, and what the copy says |
| `YamlEdit`, `YamlFlow`, `YamlEdits`, `YamlOutcome`, `YamlDocument`, `YamlBinding` | editing the copy step by step, and the two edits the gateway makes: binding a chat, forgetting a platform |
| `ImageReceiver`, `ImageArrival`, `MapSum` | assembling images from chunks under a shared byte budget |
| `PairingBuckets` | token buckets for pairing attempts and hints |

## What turned out differently

Places where the code does not do what one would expect of it, each with a lemma:

- `DiscordResume.LiveEventIsSkipped`: a live event's number is recorded before the event
  is handed over. If the heartbeat gives the connection up in between, the event is never
  delivered and the next RESUME asks only for what follows. `MissingExactly` says exactly
  when. The replay of a resumed connection does not have this gap.
- `PairingBuckets.EvictionUnobservable`: dropping an idle hint bucket is unobservable if
  and only if its chat returns a whole number of refill intervals after the last refill;
  otherwise the new bucket refills at other moments and can grant one hint more or less.
  `NeverFarApart` bounds the difference by one token.
- `SessionTransfers.CommitRestoresExactly`: a commit that reports success leaves files from
  which Load restores every guard if and only if it wrote nothing and the files said so
  already, or every record it writes names a session and a transfer and so do the files
  left behind; deleting an ill-formed guard is not enough while the removal of the journal
  is not synced. `EmptySessionIsRefused` is an instance. If every value committed names
  both, a success is restored unless it wrote nothing and found unsettled files
  (`NamedCommitsExactly`), which takes a process that was restarted without a crash and has
  not written since (`NamedCommitsAreRestored`); `ShortcutAfterRestart` is such a success
  that a power failure takes away.
- `SessionTransfers.RestartWithoutCrash`: a process that restarts while the machine stays
  up may read a replacement that is not durable yet, take it as settled, and lose it in a
  later power failure. `RestartGuardsExactly` says which guards are safe after a restart:
  those in every content that one of the files may have, which includes every guard that
  memory had before.
- `YamlAliasKeys.AliasKeyIsRenamed`: a key written as an alias changes its name when the
  document is copied for editing. `CopyReadsTheSame` says what the copy reads as, and
  `AliasKeysExactly` when that is what the document said: a renaming is harmless only in a
  pair that was shadowed and stays shadowed.
- `ImageReceiver.ArrivesExactly`: an image whose bytes, size and chunks are right arrives if
  and only if its announced digest is written in small letters, which its summary is not
  checked for.
- `RouteVisits.ReadyRoute`: the barrier that quarantined records should raise never holds,
  because only pending records are listed and a quarantined one is settled.

A difference between two functions that the program's own parsing does not reach: with two
merge keys in one mapping the check for unsupported fields follows only the last, the editor
follows both (`YamlMergeKeys.TwoMergeKeysDiffer`; `ReadingsAgreeExactly` and
`EarlierMergesExactly` say when that makes no difference). Both functions are applied to
mappings that were decoded before, and the decoder, which is not part of this model, refuses a
mapping with two equal keys, merge keys among them; removing duplicates leaves merge keys alone
(config/document.go:47-85).

## Model

| member | source | states |
|---|---|---|
| Utf8.CutPoints | internal/im/im_text_send.go:252-315 | the positions that the search takes for cut points, by looking at one byte, are exactly those that leave both sides valid UTF-8 |
| Utf8.InsideRune | internal/im/im_text_send.go:265-282 | a position inside a character never leaves a valid side |
| TextSend.TrimTextBytes | internal/im/im_text_send.go:306-315 | trimming to a byte limit gives the longest prefix of whole characters within it |
| TextSend.Options.Prefix | internal/im/im_text_send.go:252-305 | galloping and bisecting over rune starts terminates and finds what scanning every cut point from the end would find, cut at the last line break before it |
| TextSend.Options.PrefixMeaning | internal/im/im_text_send.go:252-305 | without the search: the prefix fits with the suffix, ends between two characters, is empty exactly if not one character fits, and no longer cut fits unless the prefix was moved back to the last line break |
| TextSend.Options.Segments | internal/im/im_text_send.go:316-375 | both passes, the shortcut and the rendering give the rendered reference segmentation or its error |
| TextSend.Options.OneSegment | internal/im/im_text_send.go:317-331 | the shortcut for a text that fits as a whole gives what the search would give |
| TextSend.Options.SourcesMeaning | internal/im/im_text_send.go:316-375 | at most 32 segments, each within its budget, 64 KiB in all; together they are the text, or a front of it cut between two characters followed by the notice |
| TextSend.Options.ErrorMeaning | internal/im/im_text_send.go:316-375 | an error means that some single character of the text exceeds the budget |
| TextSegments.PrefixExactly | internal/im/im_text_send.go:252-305 | the prefix is the front up to the last cut between two characters at which it fits with the suffix, or up to the last line break before that cut if text follows, and nothing else is |
| TextSegments.SegmentsExactly | internal/im/im_text_send.go:316-375 | a text within 64 KiB is sent whole exactly if 32 successive such fronts are enough, and these are its segments; otherwise they are those of its longest front that leaves room for the notice, up to a last one with the notice, which comes as soon as the rest fits with it or as the 32nd |
| TextTargets.StepInv | internal/im/im_text_send.go:211-235 | every step keeps: all calls for a target share one entry, whose count is the number of its users, and whose slot is full exactly while one of them holds it |
| TextTargets.OneHolder | internal/im/im_text_send.go:211-235 | however entries are dropped and made again, no two calls hold a target at once, freeing never waits, and a waiting call can go on whenever nobody holds its target |
| TextTargets.NothingLeaks | internal/im/im_text_send.go:211-235 | the table has exactly the targets that some call uses |
| TextTargets.TargetTable.Enter | internal/im/im_text_send.go:212-219 | a call joins the entry that the table has for its target, made if there is none |
| TextTargets.TargetTable.Free | internal/im/im_text_send.go:230-230 | the holder frees its slot at once |
| TextTargets.TargetTable.Unref | internal/im/im_text_send.go:220-227 | the last user takes the target out of the table |
| TextTargets.SendSegments | internal/im/im_text_send.go:156-209 | the accepted segments are the first ones, each once and in order; a segment is tried again only after a rate limit; every attempt takes the next turn, and the loop ends early exactly with a reply or a cancellation that says so, with the category of that reply; an unknown outcome is always reported as such |
| SessionTransfers.TrailKeeps | internal/gateway/session_transfers.go:148-218 | at every crash point inside a commit every guard in memory survives the crash; only the one being deleted is given up, and not before the journal |
| SessionTransfers.NoGuardLost | internal/gateway/session_transfers.go:72-218 | over any run of commits, crashes and restarts, with any writes failing or left uncertain and the files unsettled when a process restarts, a binding that is blocked, and that loading whatever a crash leaves would block again, stays so until a deletion that names the guard's own transfer has made its writes |
| SessionTransfers.OnlyOwnCommits | internal/gateway/session_transfers.go:133-218 | over any run, crashes and restarts included, a binding that is blocked by a transfer in memory and in whatever a crash leaves stays blocked by that transfer unless some commit of the run names it |
| SessionTransfers.CommitAnswers | internal/gateway/session_transfers.go:148-218 | success needs a commit that names the transfer that is there, or none where none is; which answer every other commit gets, that it changes nothing in memory, and what exactly a successful one leaves there |
| SessionTransfers.RunInv | internal/gateway/session_transfers.go:148-218 | after any run of commits and crashes every guard in memory is in all contents that one of the files may have, and unless a write is uncertain or loading failed, files that can be read restore every guard in memory with its value |
| SessionTransfers.CommitRestoresExactly | internal/gateway/session_transfers.go:72-218 | from any state, also after a restart: a commit that reports success leaves files from which Load restores every guard with its value if and only if, when it wrote nothing, the files it found do; otherwise every record it writes names a session and a transfer, a replacement found a journal that can be read, and a deletion whose cleanup is not synced found only such records |
| SessionTransfers.CommitIsRestored | internal/gateway/session_transfers.go:97-218 | under the invariant, with files that can be read, the condition is on the call alone: nothing to write, or well-formed records, and well-formed old ones for a deletion whose cleanup is not synced |
| SessionTransfers.RestoredMeaning | internal/gateway/session_transfers.go:72-95 | every possible pair of files restores the guards if and only if each may be read and each guard is durable with its value |
| SessionTransfers.RunReadable | internal/gateway/session_transfers.go:72-218 | if every value that is committed names a session and a transfer, the files can be read after every step of every run, crashes and restarts included |
| SessionTransfers.NamedCommitsExactly | internal/gateway/session_transfers.go:72-218 | from any readable files, over any such run, crashes and restarts included, a commit that reports success is restored by every later Load if and only if it wrote, or the files it found were settled |
| SessionTransfers.NamedCommitsAreRestored | internal/gateway/session_transfers.go:72-218 | so every such success is restored, unless the process was restarted without a crash and has not written since, this call included |
| SessionTransfers.RunSound | internal/gateway/session_transfers.go:148-218 | writing once after a restart, even without success, is enough: from then on what memory has is restored by every Load, or the next commit writes |
| SessionTransfers.ShortcutAfterRestart | internal/gateway/session_transfers.go:97-118 | in the remaining case a success can be lost: a record whose write was uncertain is read after a restart, committing it again writes nothing, and a crash forgets it |
| SessionTransfers.EmptySessionIsRefused | internal/gateway/session_transfers.go:97-118 | a successful commit can leave files that Load refuses |
| SessionTransfers.RestartWithoutCrash | internal/gateway/session_transfers.go:72-95 | a restart without a crash can end with a blocked binding that a later crash forgets |
| SessionTransfers.RestartGuardsExactly | internal/gateway/session_transfers.go:72-95 | whatever contents a restarted process reads, a binding is guarded durably afterwards if and only if every possible content of one of the two files holds it or cannot be read; a guard that memory had before is among these |
| SessionTransfers.DurableMeaning | internal/gateway/session_transfers.go:72-95 | a binding survives every crash if and only if every possible content of one of the files holds it or cannot be read |
| SessionTransfers.UpdatesKeep | internal/gateway/session_transfers.go:133-184 | any run of updates keeps the first start time and any interruption of a live transfer |
| SessionTransfers.Merge | internal/gateway/session_transfers.go:72-95 | merging the journal adds exactly the records whose key the current file lacks |
| SessionTransfers.TransferStore.Load | internal/gateway/session_transfers.go:72-95 | loads what a crash or a restart may find in the files, or refuses and blocks everything |
| SessionTransfers.TransferStore.Commit | internal/gateway/session_transfers.go:148-218 | the whole commit, for every outcome of its two writes and the removal, is the step of the protocol; it succeeds only if the guards were loaded and the call names the transfer under its key, or none where there is none |
| SessionTransfers.TransferStore.Blocked | internal/gateway/session_transfers.go:129-132 | the answer is the protocol's, and a yes while the files are loaded is durable: whatever a crash leaves of them, loading it blocks this binding again |
| SessionTransfers.TransferStore.FailClosed | internal/gateway/session_transfers.go:220-224 | afterwards every binding is blocked |
| IngressInvariant.StepInv | internal/gateway/im_ingress_store.go:147-512 | every operation keeps: distinct sequences within the route's, each pending task on its active route under its revision and authorization, history in expiry order over exactly the settled records, both deduplication maps exact, all limits |
| IngressInvariant.ResavedAt | internal/gateway/im_ingress_store_routes.go:16-110 | a loop over a route's pending records changes each selected one once and no other |
| IngressInvariant.QuarantineEmpties | internal/gateway/im_ingress_store_routes.go:30-47 | after the quarantine of a re-identified route nothing is pending on it |
| IngressTally.SumRemove | internal/gateway/im_ingress_store.go:120-140 | the counters are sums over the records, in whatever order these are taken |
| IngressTally.SumCounts | internal/gateway/im_ingress_store.go:120-140 | pending and settled counts add up to the number of records |
| IngressIndex.SortedUnique | internal/gateway/im_ingress_store.go:235-279 | the listing order determines a listing: two sorted listings of the same records are equal |
| IngressRuns.ReachableBounds | internal/gateway/im_ingress_store.go:461-477 | over every run at most 65 records are pending on a route, 1025 on an account, 4097 in all, and at most 100000 are kept |
| IngressRuns.ReachableKeys | internal/gateway/im_ingress_store.go:420-453 | no two kept records share a business key; two that share a semantic key include a rejection recorded by the store itself |
| IngressRuns.PrunedExactly | internal/gateway/im_ingress_store.go:188-225 | pruning forgets a record if and only if it settled at least 24 hours ago, although it stops at the first live entry |
| IngressRuns.StepContinues | internal/gateway/im_ingress_store.go:346-512 | no step changes a record's identity or a settled record; a record leaves only a day after it settled |
| IngressRuns.WindowHolds | internal/gateway/im_ingress_store.go:159-225 | through any run that does not close the store a business key, and the semantic key of a record that claims one, stay bound to their record until a day after that record settled |
| IngressRuns.RepetitionIsRecognized | internal/gateway/im_ingress_store.go:420-440 | delivering a bound business key again stores nothing, answers with the very record, and moves only the checkpoint |
| IngressRuns.SemanticRepetitionIsRecognized | internal/gateway/im_ingress_store.go:420-453 | outside Telegram the same holds for a bound semantic key that comes under a new business key |
| IngressRuns.AcceptIsAtomic | internal/gateway/im_ingress_store.go:346-488 | an answer without a record changed nothing but expired history; an answer with one moved the supplied cursor by exactly one generation and stored at most that record |
| IngressRuns.GenerationsCount | internal/gateway/im_ingress_progress.go:11-48 | over any run that does not close the store a cursor's generation counts its checkpoints, none skipped or repeated; WeChat batch versions rise with each |
| IngressRuns.StaleFinishIsRefused | internal/gateway/im_ingress_store_routes.go:49-87 | once a route has moved on, finishing the older change is refused and changes nothing, for ever |
| IngressRuns.NoTaskSurvives | internal/gateway/im_ingress_store_routes.go:16-87 | a step that gives a route another revision, authorization or phase settles every task that was pending on it |
| IngressStore.IngressStore.Save | internal/gateway/im_ingress_store.go:147-187 | saving updates all indexes, counters and the history so that they are again the images of the records |
| IngressStore.IngressStore.PruneHistory | internal/gateway/im_ingress_store.go:188-225 | forgetting expired records and compacting the history do to the records what pruning means, with every index still exact |
| IngressStore.IngressStore.Get | internal/gateway/im_ingress_store.go:226-234 | the record that is kept under this identifier and named by it; a settled one has no text, and its business key leads back to it |
| IngressStore.IngressStore.List | internal/gateway/im_ingress_store.go:235-279 | listing through the indexes gives what filtering all records would give, sorted, each once |
| IngressStore.IngressStore.LookupCommittedBusiness | internal/gateway/im_ingress_store.go:333-342 | finds a record exactly if one has this business key, and reports its state |
| IngressStore.IngressStore.Full | internal/gateway/im_ingress_store.go:461-477 | the checks in constant time are the limits on the sets of records |
| IngressStore.IngressStore.AcceptRecord | internal/gateway/im_ingress_store.go:346-488 | takes a message exactly if it is welcome, then holds it whole; otherwise repeats, rejects or turns away as the abstract store does; record and cursor are published together |
| IngressAccepted.AcceptedExactly | internal/gateway/im_ingress_store.go:346-488 | a message is taken if and only if it is well-formed, its state unset or received, its times are in range, the transport and the store stand, its checkpoint is the successor or absent, no kept record has its business key or claims its semantic key, a task has its chat bound as when it was written, and no limit is reached; it is then kept received, with its text if it is a task, under its keys and the next number of its chat, beside exactly the records that have not expired |
| IngressAccepted.RetriedExactly | internal/gateway/im_ingress_store.go:454-477 | a new message that is well-formed and in time but not taken is answered with a retry, whose reason is the route or the limits, and only expired history is gone |
| IngressAccepted.LateIsRecorded | internal/gateway/im_ingress_store.go:400-411 | a new message sent too long ago is refused, and the refusal is kept in its place without the text |
| IngressAccepted.ConflictIsRecorded | internal/gateway/im_ingress_store.go:420-436 | a Telegram update whose number a kept record has with other content is refused under a business key of its own, and the kept record stays |
| IngressAccepted.TelegramRepeatIsRecorded | internal/gateway/im_ingress_store.go:437-453 | a Telegram update with the semantic key of a kept record is answered as a duplicate and kept as a rejection under its own number |
| IngressStore.IngressStore.UpdateRecord | internal/gateway/im_ingress_store.go:489-512 | changes a record in an allowed state, or reports why not and changes nothing |
| IngressChanges.UpdatedRecord | internal/gateway/im_ingress_store.go:489-512 | an update succeeds exactly on an open store, for a record in an allowed state, if the change does; the record is then what the change made of it, without its text if that settles it, and no other record changes |
| IngressStore.IngressStore.EnsureRoute | internal/gateway/im_ingress_store_routes.go:16-48 | a route that changes identity is refused while something is in flight, otherwise it gets a new revision and its received records are quarantined; an unchanged one is left alone |
| IngressChanges.EnsuredBinding | internal/gateway/im_ingress_store_routes.go:16-48 | giving a chat a binding succeeds exactly if the store is open and the binding is in force already or nothing of the chat is in flight; the chat then has exactly this digest, workspace and session, its old numbering, and a new revision unless nothing changed |
| IngressChanges.WaitingIsQuarantined | internal/gateway/im_ingress_store_routes.go:30-47 | under a new binding every message that waited on the chat is quarantined with its reason and without its text; every other record that has not expired stays as it is |
| IngressStore.IngressStore.BeginRouteChange | internal/gateway/im_ingress_store_routes.go:49-68 | a change begins only on a route that nothing holds |
| IngressChanges.BegunChange | internal/gateway/im_ingress_store_routes.go:49-68 | a change begins exactly on an open store if no task of the chat waits or is under way and no control is under way; the chat is then changing under the new revision, with its old numbering |
| IngressStore.IngressStore.FinishRouteChange | internal/gateway/im_ingress_store_routes.go:69-87 | only the change that is under way is finished |
| IngressChanges.FinishedBinding | internal/gateway/im_ingress_store_routes.go:69-87 | the change under way under this revision, and no other, is finished; the chat then has exactly the digest, workspace and session that were given |
| IngressStore.IngressStore.BindRouteSession | internal/gateway/im_ingress_store_routes.go:88-110 | binding a session, possible only on the active route under this revision, gives it to exactly the received records of that revision that have none |
| IngressChanges.SessionGiven | internal/gateway/im_ingress_store_routes.go:88-110 | the chat and every received record of the revision that had none have the session afterwards; their text and everything else stays, and so does every other record |
| IngressStore.IngressStore.CommitCursor | internal/gateway/im_ingress_progress.go:11-48 | a cursor is replaced only by its immediate successor |
| IngressChanges.CommittedExactly | internal/gateway/im_ingress_progress.go:11-48 | a checkpoint is stored exactly if the transport and the store stand, it is valid for the account and the next generation after the expected current one, and for WeChat a later batch |
| IngressStore.IngressStore.Close | internal/gateway/im_ingress_store.go:75-93 | closing empties the store and all its indexes |
| Scheduler.AtMostOneTask | internal/gateway/im_ingress_dispatch.go:288-332 | over every interleaving of dispatchers, receipts, route changes and acceptance at most one task of a chat is dispatching or unknown, and at most eight dispatchers run |
| Scheduler.EntersAlone | internal/gateway/im_ingress_dispatch.go:417-477 | a task goes into flight only by its route's dispatcher, with nothing else of the route in flight, on an active route under the revision and authorization it was accepted with |
| Scheduler.OthersCalm | internal/gateway/im_ingress_dispatch.go:478-508 | nothing outside the dispatchers brings a record into flight |
| Scheduler.ReceiptsAreCalm | internal/gateway/im_ingress_dispatch.go:668-685 | a receipt only moves records that are in flight already |
| Dispatching.TaskIsDispatched | internal/gateway/im_ingress_dispatch.go:417-476 | a task that waits in a chat where nothing is in flight can be dispatched: one turn of a free dispatcher brings exactly it into flight, with what it is sent under, whatever waits before it |
| Dispatching.RefusedIsGivenBack | internal/gateway/im_ingress_dispatch.go:512-666 | a task that was sent and refused waits again with its text, and its chat is free |
| Dispatching.UnansweredIsUnknown | internal/gateway/im_ingress_dispatch.go:512-666 | a task whose sending came to no result is unknown, with the reason, and its chat is free |
| Dispatching.ControlIsSettled | internal/gateway/im_ingress_dispatch.go:441-470 | a control is finished with exactly the state and the reason it came to, and no other record changes |
| RouteVisits.IngressService.VisitRoute | internal/gateway/im_ingress_dispatch.go:367-390 | gives up exactly the route's deliveries unconfirmed for five minutes, as expired for want of a receipt, touches no other record, and reports work exactly if a control is received, or a task while the route is neither held nor has anything in flight |
| RouteVisits.IngressService.SettleStalledRecords | internal/gateway/im_ingress_dispatch.go:396-410 | the loop over the listing is the fold of settling each stalled delivery |
| RouteVisits.SettledExactly | internal/gateway/im_ingress_dispatch.go:396-410 | exactly the stalled deliveries are given up, as expired for want of a receipt; all else is as before, no chat is put on hold |
| RouteVisits.ReadyRoute | internal/gateway/im_ingress_dispatch.go:367-390 | looking through the listing decides readiness of the route; the barrier of quarantined revisions never applies |
| RouteVisits.IngressService.Finish | internal/gateway/im_ingress_dispatch.go:478-487 | a pending record gets exactly this state and reason and no other changes; if it cannot be settled the chat is held, unless it is settled already |
| RouteVisits.IngressService.RouteBlocked | internal/gateway/im_ingress_dispatch.go:78-88 | a hold lasts less than thirty seconds and is dropped when it is found over |
| ControlPriority.PrioritizeControls | internal/gateway/im_ingress_dispatch.go:734-765 | the loop computes the prioritized order |
| ControlPriority.PrioritizedIsPermutation | internal/gateway/im_ingress_dispatch.go:734-765 | nothing is dropped or repeated |
| ControlPriority.PrioritizedIsFair | internal/gateway/im_ingress_dispatch.go:734-765 | urgent and ordinary records keep their order among themselves, and at most four urgent ones go before an ordinary one |
| Normalizer.StepInv | internal/gateway/im_ingress_normalize.go:102-229 | every step keeps one token per non-empty key, the count exact, queues in submission order, and no worker beside another on a key |
| Normalizer.SendNeverBlocks | internal/gateway/im_ingress_normalize.go:124-169 | neither a submitter nor a worker can find the channel of keys full |
| Normalizer.OneWorkerPerKey | internal/gateway/im_ingress_normalize.go:133-169 | no key is with two workers; a woken worker finds work and removes the item it answered |
| Normalizer.KeyOrder | internal/gateway/im_ingress_normalize.go:133-169 | when an item starts, everything submitted before it under its key has its result |
| Normalizer.OneResult | internal/gateway/im_ingress_normalize.go:102-229 | an accepted item gets at most one result, exactly one once shutdown is over, and an item answered by shutdown was never started |
| Normalizer.IngressNormalizer.Submit | internal/gateway/im_ingress_normalize.go:102-131 | takes the item exactly if the pool is open, the call and its context stand and fewer than 128 items are held; then it is the last of its key's queue, and a worker is woken exactly for a new key; otherwise refuses for the first applicable reason and changes nothing |
| Normalizer.IngressNormalizer.Send | internal/gateway/im_ingress_normalize.go:124-128 | the send is possible at once and hands over the key's token |
| Normalizer.IngressNormalizer.Peek | internal/gateway/im_ingress_normalize.go:133-150 | the worker that has the token finds an item at the front of the key's queue |
| Normalizer.IngressNormalizer.Advance | internal/gateway/im_ingress_normalize.go:150-169 | the answered item leaves the queue; the token is returned exactly if more is left |
| Normalizer.IngressNormalizer.Drain | internal/gateway/im_ingress_normalize.go:200-229 | shutdown answers everything that is left, so that every item has exactly one result |
| OutboundDispatcher.StepInv | internal/gateway/outbound_dispatcher.go:64-182 | every step keeps: what was sent was run, is being run or waits, in ticket order; a shard's token is with at most one producer |
| OutboundDispatcher.TokenOrder | internal/gateway/outbound_dispatcher.go:78-144 | tasks of a shard run in the order in which their producers took the token, so a waiting producer is not overtaken |
| OutboundDispatcher.QueuedRunOnce | internal/gateway/outbound_dispatcher.go:64-182 | no task runs twice, a refused one never, and one reported as queued has run when close returns |
| OutboundDispatcher.NothingAfterReturn | internal/gateway/outbound_dispatcher.go:146-161 | after close has returned nothing enters and nothing runs |
| OutboundDispatcher.Dispatcher.Enter | internal/gateway/outbound_dispatcher.go:64-76 | a call is admitted exactly while the dispatcher is open |
| OutboundDispatcher.Dispatcher.TakeToken | internal/gateway/outbound_dispatcher.go:78-100 | the producer that takes the shard's token gets the next ticket |
| OutboundDispatcher.Dispatcher.Send | internal/gateway/outbound_dispatcher.go:102-144 | the task joins its shard's queue behind everything sent before |
| OutboundDispatcher.Dispatcher.ReturnToken | internal/gateway/outbound_dispatcher.go:101-101 | returning the token never waits: it was not in its channel |
| OutboundDispatcher.Dispatcher.Close | internal/gateway/outbound_dispatcher.go:146-157 | only the first close goes on |
| OutboundDispatcher.Dispatcher.Receive | internal/gateway/outbound_dispatcher.go:163-182 | the consumer takes the oldest task, also while draining |
| OutboundDispatcher.Dispatcher.Return | internal/gateway/outbound_dispatcher.go:158-161 | when close returns, no call is inside, every queue is empty and everything sent was run |
| InputReceipts.StepInv | internal/gateway/process_input_observer.go:44-212 | every step, also while a commit runs unlocked, keeps the queue duplicate-free over live observers and the counters exact |
| InputReceipts.NeverOverflows | internal/gateway/process_input_observer.go:99-130 | the branch for a full queue is unreachable, and the worker always finds the observer at the front |
| InputReceipts.UnconfirmedIsExact | internal/gateway/process_input.go:95-149 | the counter of unconfirmed inputs is the uncertain inputs without observer plus the observers marked unconfirmed |
| InputReceipts.DefiniteIsFinal | internal/gateway/process_input_observer.go:88-130 | a definite receipt stays, whatever arrives, fails or ends later, and if its registration ends, that receipt was applied |
| InputReceipts.DrainedIsApplied | internal/gateway/process_input_observer.go:141-188 | whenever the queue is empty, as it is when the worker rests without a failed commit, the receipt applied last for each observer is its current one |
| InputCauses.EveryReceiptIsGiven | internal/gateway/process_input_observer.go:44-212 | over any run, every receipt that is stored, applied or settled for a registration carries a status that some result of the run gave for its ID and identity while it was registered, or is an unknown one of a timeout, a failed write, the end of the process or a shutdown |
| InputReceipts.ResultMeaning | internal/gateway/process_input.go:95-138 | a result for a listening observer of this identity leaves exactly its status and the longest valid front of 512 bytes of its message, waiting once in the queue; for an unobserved pending input, the input leaves the pending ones and the uncertain count rises exactly for an unknown status; any other result changes nothing |
| InputReceipts.TimeoutMeaning | internal/gateway/process_input_observer.go:44-81 | the timer of a registration makes it uncertain exactly while that registration has no definite receipt |
| InputReceipts.ChordProcess.ObserveInputReceipt | internal/gateway/process_input_observer.go:44-81 | registers a listening observer without a receipt exactly if the identity, the ID, the callback and the limits allow it; otherwise refuses for the first applicable reason and changes nothing |
| InputReceipts.ChordProcess.Clip | internal/gateway/process_input_observer.go:99-130 | a message over 512 bytes is cut there, and further back until it is valid UTF-8 |
| InputReceipts.ChordProcess.QueueInputReceipt | internal/gateway/process_input_observer.go:99-130 | a receipt reaches a listening observer as it is, clipped, waits once in the queue and starts the worker; any other changes nothing |
| InputReceipts.ChordProcess.SendUserMessage | internal/gateway/process_input.go:39-91 | an input that may be sent is pending once it is written; if it cannot be written its observer becomes uncertain, and without an observer nothing is left of it; any other input changes nothing |
| InputReceipts.ChordProcess.ApplyInputResult | internal/gateway/process_input.go:95-138 | the result reaches its observer or settles its pending input exactly as it is; the answer is no for a result that is not this process's and for a definite one that a newer envelope overtook |
| InputReceipts.ChordProcess.AbandonPendingInputs | internal/gateway/process_input.go:140-149 | every pending input of a lost process without an observer stops being pending and counts as lost; every observer of one that still listens gets an unknown receipt |
| InputReceipts.ChordProcess.SealInputReceipts | internal/gateway/process_input_observer.go:193-212 | shutdown gives every observer that still listens an unknown receipt, and leaves the others as they are |
| InputReceipts.ChordProcess.NextReceipt | internal/gateway/process_input_observer.go:141-160 | the worker takes the current receipt of the observer at the front of the queue, or rests exactly if the queue is empty |
| InputReceipts.ChordProcess.ReceiptCommitted | internal/gateway/process_input_observer.go:160-188 | a receipt that was not accepted stops the worker with everything kept; an accepted definite one is final and ends its registration, an accepted unknown one leaves the queue, and a newer one that came meanwhile is taken next |
| DiscordResume.Listener.Listen | internal/discordgateway/gateway.go:608-799 | whatever arrives, wherever the connection ends and whatever other goroutines do: past READY or RESUMED all captured replay events were delivered once, in order, then every live one except at most the very last; a resume that did not get there has the number sent in RESUME back; a session is lost only to an invalid session, two close codes or Close; and while nothing happens elsewhere the outcome is exactly that of the messages one by one |
| DiscordTranscripts.ListenIdentified | internal/discordgateway/gateway.go:608-799 | while nothing happens elsewhere: after HELLO, an accepted READY and other events, with harmless messages among them, every event is recorded, every wanted one was delivered once and in order, and session and number are those of READY and of the last event |
| DiscordTranscripts.ListenResumed | internal/discordgateway/gateway.go:608-799 | after HELLO, a replay of at most 1024 wanted events, RESUMED and other events, the wanted ones of the replay and then those after it were delivered, and the number is the last one; if the replay is longer or RESUMED does not come, nothing was delivered and the number sent is back; the session is kept |
| DiscordTranscripts.IdentifyDelivers | internal/discordgateway/gateway.go:693-772 | the same about the messages, for every transcript of a connection that identifies itself |
| DiscordTranscripts.ResumeDelivers | internal/discordgateway/gateway.go:693-772 | the same for every transcript of a connection that resumes and reaches RESUMED |
| DiscordTranscripts.ReplayIsAskedAgain | internal/discordgateway/gateway.go:615-626 | the same for every transcript whose replay is too long or is not ended by RESUMED |
| DiscordTranscripts.MessageMeaning | internal/discordgateway/gateway.go:627-799 | which messages end a current connection; the session is cleared exactly by a session that is not resumable and close codes 4007 and 4009; only a dispatched event is recorded, and nothing is delivered without one |
| DiscordResume.Listener.Replay | internal/discordgateway/gateway.go:608-799 | captured events are handed over in order, or the connection counts as not resumed |
| DiscordResume.Listener.Capture | internal/discordgateway/gateway.go:802-820 | at most 1024 events are gathered before RESUMED; one more ends the connection |
| DiscordResume.Listener.Restore | internal/discordgateway/gateway.go:615-626 | the deferred end of listen puts the number sent in RESUME back exactly if the replay was not completed on a validated session |
| DiscordResume.MissingExactly | internal/discordgateway/gateway.go:802-825 | the last live event is missing if and only if it was wanted and the connection was given up or its context ended after its number was recorded |
| DiscordResume.LiveEventIsSkipped | internal/discordgateway/gateway.go:802-825 | in any state with a wanted event recorded but not handed over, losing the connection then leaves the event out, while the number stays remembered |
| DiscordResume.LoseEvent | internal/discordgateway/gateway.go:608-825 | a run of the listener from a new connection that gets there: HELLO, an accepted READY, an event whose connection is lost as soon as it is recorded; the session stays valid and the event was not delivered |
| DiscordResume.AcrossConnections | internal/discordgateway/gateway.go:608-799 | over a chain of resumed connections without that loss exactly the recorded events are delivered, once and in order, and the next RESUME continues behind them |
| YamlMerge.WalkAgrees | config/unknown_fields.go:77-104 | walking a node adds exactly its effective entries that are new, so skipping a node that was visited before is sound |
| YamlMerge.MergesAgree | internal/gateway/config_store.go:216-261 | when the editor's reading succeeds, the lenient walk visits the same names, each once; the entries are equal if and only if no explicit key is repeated |
| YamlMergeKeys.WalkReadsTheLast | config/unknown_fields.go:77-104 | the walk visits exactly the entries that the editor would read if every mapping of the document had only the last of its merge keys |
| YamlMergeKeys.ReadingsAgreeExactly | internal/gateway/config_store.go:216-261 | for every mapping that can be read: the walk and the editor know the same names if and only if what the walk sees behind the last merge adds, to the explicit names, what all merges add |
| YamlMergeKeys.EarlierMergesExactly | internal/gateway/config_store.go:216-261 | where no mapping that is read behind the last merge has two merge keys itself, the two know the same names if and only if every name of the earlier merges is explicit or in the last one |
| YamlMergeKeys.TwoMergeKeysDiffer | config/unknown_fields.go:77-104 | with two merged mappings the names differ if and only if the first has a name that the second lacks |
| YamlDedupe.KeptOwn | config/document.go:47-85 | removing duplicates keeps the first entry of each name, in order, and every merge |
| YamlDedupe.DedupedAgree | config/document.go:47-85 | afterwards both readings of the mapping's merges give the same entries |
| YamlCopy.CopyFailsExactlyOnCycles | internal/gateway/config_store.go:265-291 | copying terminates on every graph and is refused if and only if following children and aliases comes back to a node on the way |
| YamlCopy.CopyMirrors | internal/gateway/config_store.go:265-291 | otherwise the copy says the same node by node and contains no alias |
| YamlCopy.EditIsLocal | internal/gateway/config_store.go:263-291 | whatever happens to the nodes of one child of the copy, every other child reads the same |
| YamlEffective.CopyHasSameEntries | internal/gateway/config_store.go:216-291 | in a document whose alias keys are spelled like what they stand for, a mapping that can be read has the same effective entries in the copy, in the same order; CopyReadsSpelled is the statement without that condition |
| YamlAliasKeys.CopyReadsSpelled | internal/gateway/config_store.go:216-291 | a mapping that can be read has in the copy the effective entries it has with every alias key spelled out, in the same order |
| YamlAliasKeys.CopyReadsTheSame | internal/gateway/config_store.go:183-291 | every chain of keys that can be read in the document with its alias keys spelled out leads to the same value in the copy, or to none in both |
| YamlAliasKeys.AliasKeysExactly | internal/gateway/config_store.go:275-281 | spelling out the alias keys leaves a mapping's effective entries as they are if and only if its explicit keys keep their names and every renamed key it merges was shadowed and stays shadowed |
| YamlAliasKeys.AlikeReads | internal/gateway/config_store.go:183-291 | a chain of keys along which that is so leads to the same node before and after |
| YamlAliasKeys.AliasKeyIsRenamed | internal/gateway/config_store.go:275-281 | copying a mapping whose key is an alias gives the key a different name |
| YamlEdit.SetKeepsOthers | internal/gateway/config_store.go:164-172 | the name has the value that was set and every other name what it had |
| YamlDocument.Document.MaterializeMapping | internal/gateway/config_store.go:216-261 | computes the effective entries or the error, cycles included |
| YamlDocument.Document.WalkMapping | config/unknown_fields.go:77-104 | computes the walk with its global set of visited nodes |
| YamlDocument.Document.DedupeMappingKeys | config/document.go:47-85 | terminates on every graph; each mapping reached is cleaned once and nothing else changes |
| YamlDocument.Document.CopyConfiguration | internal/gateway/config_store.go:265-291 | refused exactly on cycles; otherwise a tree of new nodes that mirrors the document, which itself is untouched; all links of the heap still lead to nodes |
| YamlDocument.Document.SetMappingValue | internal/gateway/config_store.go:164-172 | replaces the value behind the first key of this name, or appends a pair, in this node only |
| YamlDocument.Document.RemoveMappingValue | internal/gateway/config_store.go:173-180 | removes the first pair of this name, in this node only |
| YamlDocument.Document.IndependentMapping | internal/gateway/config_store.go:183-202 | fails exactly if the mapping or the value cannot be spelled out; otherwise the value becomes a new mapping, every other name keeps its effective value, no other node changes, and all links still lead to nodes |
| YamlEdits.OwnKeeps | internal/gateway/config_store.go:183-202 | making the value under a key a mapping of its own keeps the relation between the edited document and the copy: what is owned, what it was spelled out from, and which keys were set |
| YamlEdits.ChangeKeeps | internal/gateway/config_store.go:164-180 | so does setting or removing a key of an owned mapping |
| YamlEdits.UntouchedReads | internal/gateway/config_store.go:164-204 | under that relation every chain of keys that neither ends in an owned mapping nor meets a changed key leads to the very node it led to in the copy |
| YamlBinding.EditsAreLocal | internal/gateway/config_store.go:164-291 | after copying a document and any number of such edits, every chain of keys clear of them that could be read in the document, its alias keys spelled out, leads to a node that says the same, or to none in both |
| YamlOutcome.ChildOutcome | internal/gateway/config_store.go:183-202 | a value that was not edited yet is refused exactly if it is not null and its entries cannot be read in the copy; otherwise the mapping it becomes lists those entries |
| YamlOutcome.EditableInCopy | internal/gateway/config_store.go:183-291 | a chain of keys whose mappings can all be read in the document can be edited in its copy, where the last mapping has the same entries |
| YamlBinding.BindChat | internal/gateway/chat_binding.go:156-184 | refused exactly for a cycle or for a mapping on the way to the bindings or the workspaces that cannot be read in the copy, and never if all can be read in the document; otherwise the document says that the chat is bound to the workspace, that the platform has the owner to be set, and that there is the workspace, with its path if it was not there before; every chain clear of these reads as in the document |
| YamlBinding.ResetPlatform | internal/gateway/pairing_cli.go:92-106 | refused exactly for a cycle or for a mapping on the way to the platform that cannot be read in the copy; otherwise owner and bindings are gone, each if and only if its name occurred once among the platform's entries, which holds for both if the platform can be read in the document and repeats no explicit name; every chain clear of them reads as in the document |
| YamlBinding.PlatformKey | internal/gateway/config_store.go:206-214 | a platform is edited under the first key that means it, as it is spelled there, and under its normal name if there is none |
| ImageReceiver.Receiver.Accept | internal/gateway/process_images.go:331-462 | one chunk is ignored, stored, completes the image or ends the transfer; the spool counter moves by exactly the bytes taken or returned, and no identity becomes terminal but its own and, for an image on request, its reference |
| ImageArrival.ImageArrives | internal/gateway/process_images.go:331-462 | an announced or requested image whose bytes are sent in any split into non-empty chunks, in order and at their offsets, arrives: every chunk but the last is kept with those before it, and the last delivers exactly these bytes, whatever chunks of other transfers and other receivers do in between |
| ImageArrival.SummaryAnnounces | internal/gateway/process_images.go:202-274 | a summary of one to five new, well-described images announces every one of them |
| ImageReceiver.Receiver.Deliver | internal/gateway/process_images.go:450-462 | the image leaves the transfers with its bytes still counted and its identity terminal |
| ImageReceiver.CompleteMeaning | internal/gateway/process_images.go:410-452 | a delivered image is the concatenation of chunks that start at 0 and follow without gap or overlap, with exactly the announced size and digest, and only the final one marked last |
| ImageReceiver.AssembledIsContiguous | internal/gateway/process_images.go:410-440 | each stored chunk starts where the ones before it end |
| ImageReceiver.DigestFitsReference | internal/gateway/process_images.go:279-300 | a digest taken from a reference always passes the later check against it |
| ImageReceiver.ArrivesExactly | internal/gateway/process_images.go:410-452 | when the last chunk completes the announced size, the bytes have the announced digest up to letter case, and room and file operations do not fail, the image is delivered if and only if the announced digest has no capital letters |
| ImageReceiver.CapitalDigestNeverArrives | internal/gateway/process_images.go:248-262 | a summary can pass every check on it whose image is never delivered |
| ImageReceiver.CapitalsNeverArrive | internal/gateway/process_images.go:440-452 | under an announced digest with a capital letter no chunk, whatever it holds, delivers the image |
| ImageReceiver.Receiver.Result | internal/gateway/process_images.go:202-274 | a summary starts all its new images or ends its call; an ended call stays ended |
| ImageReceiver.AnnouncedStarts | internal/gateway/process_images.go:267-272 | a new image starts empty, as the summary describes it last |
| ImageReceiver.AnnouncedKeepsOthers | internal/gateway/process_images.go:267-272 | a summary changes no transfer under way |
| ImageReceiver.Receiver.FailCall | internal/gateway/process_images.go:219-228 | exactly the call's transfers end and their bytes are returned |
| ImageReceiver.Receiver.ExpectRefetch | internal/gateway/process_images.go:76-99 | true exactly if the reference is not asked for, has not arrived on request, and fewer than 32 are asked for |
| ImageReceiver.Receiver.CancelRefetch | internal/gateway/process_images.go:103-121 | only what this request asked for ends |
| ImageReceiver.Receiver.RememberTerminal | internal/gateway/process_images.go:124-137 | at most 1024 identities, the newest always among them, at most the oldest forgotten |
| ImageReceiver.Receiver.Reset | internal/gateway/process_images.go:139-152 | nothing is left but the bytes of delivered images and of other receivers |
| ImageReceiver.Receiver.Finish | internal/gateway/process_images.go:164-200 | everything incomplete ends, and the reported number counts each once |
| ImageReceiver.Receiver.CloseImage | internal/im/image_model.go:26-28 | closing a delivered image returns its bytes once |
| ImageReceiver.Receiver.OthersAct | internal/gateway/process_images.go:420-430 | what other receivers reserve or return in between keeps this receiver's accounts exact |
| PairingBuckets.WindowBound | internal/gateway/inbound_admission.go:102-113 | in any interval a bucket grants at most its size and one more per refill interval begun |
| PairingBuckets.AttemptsBounded | internal/gateway/inbound_admission.go:102-113 | however often the platform reconnects, a bucket charges at most 30 attempts in an interval and one more per two seconds begun |
| PairingBuckets.AnyWindowBounded | internal/gateway/inbound_admission.go:102-113 | the same for every window of a whole run, from before the first connection on, whatever happened before the window |
| PairingBuckets.ReconnectsDoNotCount | internal/gateway/pairing.go:93-111 | reconnecting changes nothing about the budget |
| PairingBuckets.HintsBounded | internal/gateway/pairing.go:265-298 | never more than 256 buckets, and no chat pushes out another's bucket that is not idle |
| PairingBuckets.EvictionUnobservable | internal/gateway/pairing.go:276-290 | dropping an idle bucket cannot be told from keeping it if and only if the chat returns a whole number of refill intervals later |
| PairingBuckets.NeverFarApart | internal/gateway/pairing.go:276-290 | otherwise the two buckets are never more than one token apart |
| PairingBuckets.BurstExactly | internal/gateway/inbound_admission.go:102-113 | after a pause, of any burst of requests exactly the first ones are granted, as many as there were tokens and one more per interval of the pause, up to the size |
| PairingBuckets.HintedExactly | internal/gateway/pairing.go:265-298 | a chat gets a hint exactly if its bucket has a token or is due for one, or if it has no bucket and there are fewer than 256 or an idle one to push out |
| PairingBuckets.PairingPlatform.ChargeAttempt | internal/gateway/inbound_admission.go:102-113 | refills, and charges exactly if a token is left or two seconds have passed since the last refill |
| PairingBuckets.PairingPlatform.HintAllowed | internal/gateway/pairing.go:265-298 | grants or denies the hint and makes room among the buckets as specified |
| PairingBuckets.PairingPlatform.EvictIdle | internal/gateway/pairing.go:276-290 | deleting while ranging removes exactly the idle buckets |

## Left out

- Lock contention, the polling of contexts while waiting for a mutex, metrics, signals, logs and notices.
- Wrap-around of 64-bit counters, and sizes beyond the range of `int`.
- Two businesses or chats whose joined keys coincide because a part contains `|`: keys are compared as the joined strings the program compares (internal/gateway/process_key.go:66), so statements are about those.
- IngressStore.IngressStore.UpdateRecord: asks of its callers what every caller does, allowing only pending states and leaving identity, kind, sequence, revision and digest alone, and leaving the two reasons the store records itself to the store.
- IngressStore.IngressStore.AcceptRecord: JSON and the encoded size of a record are functions; the clock stands still inside a critical section.
- Scheduler.AtMostOneTask: spawning and readying a process, the router's answers and holds on a chat are free choices of the environment, which covers every actual one; strict task order is not claimed, as a task skipped in one pass can be overtaken in the next.
- RouteVisits.IngressService.VisitRoute: other operations on the store between the listing and the settling are not interleaved here; what they may do is part of the scheduler's steps.
- The run loop's choice of routes, accepted control parameters, diagnostics and question retries of the dispatcher.
- Normalizer.OneResult: the values of results and the observers of a call are not modelled; that a submitter waits for its result is.
- InputReceipts.DrainedIsApplied: the timer that asks for a receipt is an event; lifting a block raised by question receipts is only recorded as the block being gone.
- OutboundDispatcher.TokenOrder: the hash that picks a shard is a free choice; which ready branch a select takes is free as well.
- DiscordResume.Listener.Listen: HELLO timing, raw payloads and heartbeat acknowledgements carry no state here; a new generation begins only after the listener has returned, so generation checks within one connection compare equal.
- SessionTransfers.TransferStore.Commit: a failed removal of the journal is taken as not having happened; files are read as whole contents, and JSON is a function.
- TextSend.Options.Segments: the only assumption about an adapter is that cutting a text shorter does not make it wider; the text handed in is valid UTF-8.
- TextTargets.SendSegments: the contexts that end a send are one event, and the process-wide limit on concurrent sends and an adapter's own classification of failures are left out.
- YamlDocument.Document.DedupeMappingKeys: the wording of its warnings; missing (nil) nodes, which a parsed document does not contain.
- YamlAliasKeys.CopyReadsTheSame: chains of keys that cannot be read in the document are not compared; a merge of an alias to a sequence is an error before copying and is readable afterwards.
- YamlAliasKeys.AliasKeysExactly: documents in which an alias stands for a merge key without being one, or is one and stands for something else, are left out; there the copy has other merges.
- YamlMergeKeys.EarlierMergesExactly: when a mapping read behind the last merge has several merge keys itself the condition is the one of ReadingsAgreeExactly, over what is seen behind the last merge.
- YamlDocument.Document.IndependentMapping: what other names keep is stated for a parent that is not itself an alias.
- YamlBinding.BindChat: whether the workspace exists is read from the document and not from the decoded configuration; the branches of upsertWorkspaceNode for an existing workspace are not reached from here; no mapping of the document is tagged as null.
- Reading and writing the configuration file around these edits, and its validation.
- ImageReceiver.Receiver.CancelRefetch: that the identity stays remembered is not claimed, because the bounded cache may already have it as its oldest entry.
- ImageArrival.ImageArrives: between the chunks of the image no chunk of the same call comes without a reference, since that ends the call for good (internal/gateway/process_images.go:358); summaries, cancellations and resets in between are not among the events of this statement.
- ImageReceiver.Receiver.Accept: file names and the digest's running state are not modelled; a file is the bytes written to it, and each file operation may fail.
- Platform adapters, transports, the CLI, process control, cards and texts, file locks and the router's commands.
