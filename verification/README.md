# ncli engines, modelled and proved

ncli is a Nostr command-line client: it streams events between relays and local
stores, follows feeds, signs through a local policy daemon, and runs a NIP-46
bunker that asks a human before it signs. This project models the stateful
engines inside it and proves what each keeps over whole runs.

| module | engine |
|---|---|
| `HistoryLog`, `HistoryDaemon`, `HistoryJournal`, `HistoryFile`, `HistoryCodec` | the bunker's request history: a bounded tail in memory, the append-only log that must rebuild it, compaction, restart, and the log as bytes cut by a crash |
| `ApprovalQueue` | requests waiting for a human: Add, Resolve and the expiry sweep as interleaved steps |
| `GrantStore`, `GrantSpecs`, `BunkerHandler`, `BunkerRun` | remembered grants, the grants file and permission lists they come from, the policy that decides each request, and that policy with the queue |
| `Attestations`, `UsedAttestations` | the signer's choice of attestations, and the persistent set that lets each approve one request |
| `RateLimit`, `UnwrapGate` | the signer's token bucket, and the rules that decide a gift wrap by what it holds |
| `FollowPager`, `FollowState`, `BoundedFifo` | paging back through a relay's capped answers, and what a follow remembers as delivered |
| `PullLoop` | the negentropy download loop with its retry worklist |
| `DeleteBarrier`, `PublishSlots`, `PendingHistory` | a stream destination's flow control: deletions against concurrent writes, publish slots, and the history of pending acks |
| `LineDiff` | the line diff of two events |

Concurrent code is a state machine: one step for each lock section, channel
operation, callback and store call, and theorems over every interleaving.
Sequential code that changes things in place is a class or a method with loops,
proved against a function; the theorems are about that function. A relay, a
clock, a human's answer and a duration parser are parameters. Times are whole
numbers (nanoseconds, or seconds for an event's own date); the rate limiter's
floating point is `real`.

Where the code and its comments differ, the model follows the code:

- A log whose last line was cut by a crash is opened for append as it is, so the
  next record is glued onto the fragment, the start's own expiries first
  (`HistoryFile.LeftFileReadsIff` is the exact condition; `HistoryFile.OneLeftoverLost`
  and `HistoryFile.TwoLeftoversUnreadable` say what happens otherwise).
- A request id that is resolved a second time while it is still in the log, with
  no compaction due that has lost it, breaks the equality of tail and replay
  (`HistoryDaemon.MirrorKeptIff`, `HistoryDaemon.RepeatedIdBreaksMirror`).
- The pager stops when a page brings nothing new, before it would step past a
  second that holds a full page; so it is complete exactly below that density
  (`FollowPager.CompletenessThreshold`, `FollowPager.BusySecondStops`).
- An attestation can be consumed twice when a write follows an unfinished line, or
  when the date recorded for it, that of the first event the request lists under its
  id, is too old (`UsedAttestations.UsedOnceIff` is exact, and also needs the sign
  lock under which the socket server calls the signer). Within one request,
  distinctness is by position in the list (`Attestations.PositionsStandForIdsIff`).
- A compaction of the log drops the Added lines of requests still waiting, so a
  crash after one does not find them (`HistoryDaemon.FoundIffNotCompacted`).
- Requests are joined in the approval queue by id alone, so an Add can return the
  decision on another request (`ApprovalQueue.OwnDecisionIff`).
- The rate bound needs calls in the order of their times, which are read before the
  limiter's lock (`RateLimit.OrderedBoundIff` says how far out of order is harmless).
- An ack handled between a send and its record frees no slot, although slots are
  documented not to leak (`PublishSlots.EarlyAckKeepsSlot`, `PublishSlots.LostSlotsBlock`).
- An any-kind rejection of sign_event asks, rather than rejects, for kinds 0, 3
  and 5 (`GrantStore.AnyKindDenyReaches`).
- The pull loop ends only against relays that answer with something they were
  asked for (`PullLoop.RoundShrinksIff`, `PullLoop.UnaskedAnswerStalls`).

## Model

| member | source | states |
|---|---|---|
| `HistoryLog.ReplayValid` | cli/bunker/eventlog.go:107-139 | every log replays to entries with distinct ids, none of them still pending |
| `HistoryLog.ReplayResolvedRun` | cli/bunker/eventlog.go:125-133 | appending resolutions of ids the log has not resolved adds exactly those entries, in order, and settles their requests |
| `HistoryLog.ReplayCompacted` | cli/bunker/eventlog.go:292-342 | a compacted log replays to exactly the entries it was compacted to, with nothing pending |
| `HistoryLog.LateAddedIsStale` | cli/bunker/eventlog.go:118-124 | an Added record after its own Resolved changes nothing in the replay |
| `HistoryDaemon.AddedKeeps` | cli/bunker/daemon.go:223-230 | recording an added request keeps tail and replay equal |
| `HistoryDaemon.ResolvedKeeps` | cli/bunker/daemon.go:241-295 | a resolution of a new id keeps tail and replay equal and leaves fewer than twice the tail's size in resolved lines |
| `HistoryDaemon.SignedKeeps` | cli/bunker/daemon.go:321-338 | attaching a signed event patches tail and log alike |
| `HistoryDaemon.MirrorKeptIff` | cli/bunker/daemon.go:241-295 | the equality survives a resolution exactly when the id is new to the log, or compaction is due and the id has left the tail |
| `HistoryDaemon.RepeatedIdBreaksMirror` | cli/bunker/daemon.go:241-295 | a concrete repeated id after which tail and replay differ |
| `HistoryDaemon.RestartFolds` | cli/bunker/eventlog.go:140-191 | a restart gives the replay with every unresolved request folded in once as expired, capped, and restores the invariant with nothing left over |
| `HistoryDaemon.SecondRestartSame` | cli/bunker/eventlog.go:107-191 | a second restart with no activity returns the same history and finds no leftovers |
| `HistoryDaemon.FoundIffNotCompacted` | cli/bunker/daemon.go:223-295 | a request added and neither resolved nor added again before a crash is folded in by the next start exactly when no compaction came after its Added line |
| `HistoryDaemon.CompactionLosesWaiting` | cli/bunker/daemon.go:272-278 | the resolution that compacts the log takes a waiting request out of it |
| `HistoryDaemon.RunMirrors` | cli/bunker/daemon.go:223-338 | at every point of every run of additions, resolutions, signatures and restarts, the tail is the last entries of the replay |
| `HistoryDaemon.ReplayRecords` | cli/bunker/eventlog.go:112-139 | the loop over map and order slice computes the replay |
| `HistoryDaemon.SortLeftovers` | cli/bunker/eventlog.go:150-156 | lists every leftover once, oldest first |
| `HistoryDaemon.LoadEventLog` | cli/bunker/eventlog.go:107-191 | loading is the restart step: same log, same counter, same history |
| `HistoryDaemon.EventLog.Compact` | cli/bunker/eventlog.go:292-342 | the log holds exactly the given entries and the counter is zero |
| `HistoryDaemon.Daemon.RecordHistory` | cli/bunker/daemon.go:241-295 | the daemon's step is the modelled one, and keeps the invariant and the bound on resolved lines; what that step records is `HistoryJournal.TailIsWhatWasRecorded` |
| `HistoryDaemon.Daemon.RecordResolved` | cli/bunker/daemon.go:241-258 | an answered request is recorded with the request's own fields, the time, the verdict and the flags of the resolution |
| `HistoryDaemon.Daemon.RecordAutoApproved` | cli/bunker/daemon.go:306-308 | a request allowed at once is recorded as Allow, auto-approved, neither remembered nor expired |
| `HistoryDaemon.Daemon.RecordSignedEvent` | cli/bunker/daemon.go:321-338 | patches the newest entry with that id, and logs it, exactly when there is one |
| `HistoryJournal.TailIsWhatWasRecorded` | cli/bunker/daemon.go:223-338 | at every point of every run the tail is the last entries given to resolutions and folded in by starts, in order, each as given in every field but the event |
| `HistoryJournal.LastSignedShows` | cli/bunker/daemon.go:321-338 | and its event is that of the last signature for its id since it was recorded, if there is one |
| `HistoryJournal.UnsignedShows` | cli/bunker/daemon.go:321-338 | or, with no signature since, the one it was recorded with |
| `HistoryJournal.LeftoverFields` | cli/bunker/eventlog.go:140-191 | what a start folds in is each waiting request with the fields it was added with, denied as expired at the time of the start, neither remembered nor auto-approved |
| `HistoryFile.ReadWalEntries` | cli/bunker/eventlog.go:201-227 | reads every line, forgives only an unreadable last one |
| `HistoryFile.ReadRendered` | cli/bunker/eventlog.go:201-281 | a file of whole lines reads back as the log it was written from |
| `HistoryFile.CutShape` | cli/bunker/eventlog.go:268-281 | a file cut at any byte is some whole lines and a prefix of the next |
| `HistoryFile.ReadCut` | cli/bunker/eventlog.go:201-227 | a log cut at any byte reads as exactly the records whose encoding is whole |
| `HistoryFile.RecoverCut` | cli/bunker/eventlog.go:107-227 | the history a start returns after a cut at any byte is the replay of the whole lines with every unresolved request folded in once |
| `HistoryFile.LeftFileReadsIff` | cli/bunker/eventlog.go:140-191 | the bytes that start leaves read back as the log it meant to leave exactly when the cut fell between two lines, nothing was left over, or the file was rewritten |
| `HistoryFile.SecondLoadSame` | cli/bunker/eventlog.go:107-227 | under that condition nothing is pending in the file, and a second start finds no leftovers and returns the same history |
| `HistoryFile.OneLeftoverLost` | cli/bunker/eventlog.go:140-176 | otherwise one leftover is lost again: the file reads as the lines that had their line break |
| `HistoryFile.TwoLeftoversUnreadable` | cli/bunker/eventlog.go:140-227 | otherwise two leftovers leave a file the next start refuses |
| `HistoryFile.AppendAfterCut` | cli/bunker/eventlog.go:144-148 | what is appended after a cut reads back exactly when the cut fell between two lines; otherwise one append is lost and two make the file unreadable |
| `HistoryCodec.CodecExists` | cli/bunker/eventlog.go:268-281 | an encoding of records with all the properties the byte level assumes exists |
| `ApprovalQueue.StepKeeps` | cli/bunker/queue.go:180-323 | every step keeps the queue's invariant: lookup, call stages, one owner for each entry being settled, log, bound, expiry |
| `ApprovalQueue.EveryRun` | cli/bunker/queue.go:180-323 | in every interleaving: one decision and one callback for each entry, before any Add on it returns; all of those return that verdict and flag; at most max undecided, no two with the same id; no waiter stranded |
| `ApprovalQueue.RunKeeps` | cli/bunker/queue.go:111-123 | over any run a request stays as added, flags only rise and a result once written never changes |
| `ApprovalQueue.SweepClears` | cli/bunker/queue.go:289-323 | after a sweep, and for the rest of any run, nothing undecided is at or past its expiry as of that sweep |
| `ApprovalQueue.LateRepeatJoins` | cli/bunker/queue.go:180-186 | an Add under an id already decided, before the next sweep, joins the decided entry |
| `ApprovalQueue.OwnDecisionIff` | cli/bunker/queue.go:180-212 | the decision an Add returns was taken on the very request it carried exactly when, as it took the lock, the id was free or its entry held that request |
| `ApprovalQueue.OtherRequestJoins` | cli/bunker/queue.go:180-186 | a run in which a different request under an approved id is told Allow by that approval |
| `ApprovalQueue.AllowMeansResolve` | cli/bunker/queue.go:180-323 | an Add that returns Allow was decided by a Resolve with Allow for the id of its entry; an expiry only ever denies |
| `ApprovalQueue.CallbackIsRuled` | cli/bunker/queue.go:234-323 | every resolution callback tells a Resolve made under that id, or says expired of a request past its expiry, denied and not remembered; the expiry is the ttl after the request was dated, five minutes by default |
| `ApprovalQueue.EntersAsAsked` | cli/bunker/queue.go:193-203 | a request enters as it was asked, dated by the clock and due a ttl later, undecided |
| `ApprovalQueue.DeciderSettles` | cli/bunker/queue.go:233-250 | a call that decided entries closes all of them by its own steps, none of which can be blocked |
| `ApprovalQueue.OthersLeaveDecider` | cli/bunker/queue.go:223-323 | no other call's step takes that work away |
| `ApprovalQueue.SameCount` | cli/bunker/queue.go:187-192 | the ids counted in the table are as many as the undecided entries |
| `ApprovalQueue.CountPending` | cli/bunker/queue.go:187-192 | the counting loop gives the number of undecided entries |
| `ApprovalQueue.SweepLoop` | cli/bunker/queue.go:292-309 | the loop marks exactly the expired entries, lists each once, and drops from the lookup exactly those decided before |
| `ApprovalQueue.Queue.constructor` | cli/bunker/queue.go:140-153 | an empty queue, with the defaults for a max or ttl that is not positive |
| `ApprovalQueue.Queue.AddSection` | cli/bunker/queue.go:180-203 | joins a known id, refuses at the limit, or enters a new entry with its expiry |
| `ApprovalQueue.Queue.ResolveSection` | cli/bunker/queue.go:223-231 | takes the entry exactly when the id is still undecided |
| `ApprovalQueue.Queue.SweepSection` | cli/bunker/queue.go:289-309 | the whole table after a sweep |
| `ApprovalQueue.Queue.Get` | cli/bunker/queue.go:255-264 | finds a request exactly while it is undecided |
| `GrantStore.SameScopeIff` | cli/bunker/policy.go:397-405 | two grants have the same scope exactly when method and kind agree |
| `GrantStore.DecideRefines` | cli/bunker/policy.go:230-297 | the answer is the unlapsed exact-kind grant's, else the any-kind grant's, else Ask; one use is taken, lapsed grants go, scopes stay distinct |
| `GrantStore.RememberRefines` | cli/bunker/policy.go:383-394 | remembering replaces that scope's grant and no other |
| `GrantStore.RevokeRefines` | cli/bunker/policy.go:426-442 | revoking removes exactly that scope, and reports whether it was there |
| `GrantStore.PruneRefines` | cli/bunker/policy.go:285-297 | pruning keeps exactly the unlapsed grants |
| `GrantStore.ApplyRefines` | cli/bunker/policy.go:230-455 | every store operation does to each app's table what it says and keeps all scopes distinct |
| `GrantStore.RunRefines` | cli/bunker/policy.go:230-455 | scopes stay pairwise distinct over every run |
| `GrantStore.VerdictRefines` | cli/bunker/policy.go:230-249 | Decide agrees with the table's answer, for a known app or not |
| `GrantStore.SensitiveNeverAllowed` | cli/bunker/policy.go:39-111 | no remembered grants, distinct or not, allow a sign_event of kind 0, 3 or 5 |
| `GrantStore.ServesUntilLapse` | cli/bunker/policy.go:66-111 | a grant for the exact kind, or for any kind with none for the exact one beside it, gives its verdict at every time before its lapse |
| `GrantStore.AskedFromLapse` | cli/bunker/policy.go:66-111 | from its lapse on a human is asked, if nothing else held answers |
| `GrantStore.UsesAnswerExactly` | cli/bunker/policy.go:230-280 | a grant of N uses answers the next N requests with its verdict, whenever they come, and every one after that is asked |
| `GrantStore.AnyKindDenyReaches` | cli/bunker/policy.go:72-111 | whatever else an app holds, an any-kind rejection with no unlapsed exact-kind grant rejects every kind but the sensitive ones, and asks for those |
| `GrantStore.StepBudget` | cli/bunker/policy.go:262-280 | an answer costs exactly one use, and only remembering that scope again adds any |
| `GrantStore.BudgetHolds` | cli/bunker/policy.go:262-280 | over any run that does not renew it, answers given and uses left never exceed the budget |
| `GrantStore.GrantedUsesHold` | cli/bunker/policy.go:367-395 | a grant of N uses answers at most N requests from when it is remembered |
| `GrantStore.SaveThenLoad` | cli/bunker/policy.go:179-224 | the saved sessions, in whatever order, load to the same store |
| `GrantStore.IndexOfMatch` | cli/bunker/policy.go:251-258 | the first grant that matches |
| `GrantStore.PruneGrants` | cli/bunker/policy.go:285-297 | the unlapsed grants in order, and whether any lapsed |
| `GrantStore.SpendRefines` | cli/bunker/policy.go:262-280 | one use of a grant takes one from that scope in the table, removes it with its last, and touches no other |
| `GrantStore.PruneSessions` | cli/bunker/policy.go:307-324 | every session pruned |
| `GrantStore.Store.Decide` | cli/bunker/policy.go:230-249 | the verdict and the new store; never Allow for a sensitive kind |
| `GrantStore.Store.Remember` | cli/bunker/policy.go:367-395 | the app then holds that grant under its scope, and what it held otherwise |
| `GrantStore.Store.RevokeGrant` | cli/bunker/policy.go:426-442 | the new store, and whether the scope was held |
| `GrantStore.Store.Pair` | cli/bunker/policy.go:340-349 | registers an unknown app and changes nothing it holds |
| `GrantSpecs.AtoiDecimal` | cli/bunker/grantspec.go:347-353 | a written kind is read back, within 64 bits |
| `GrantSpecs.KeysAreScopes` | cli/bunker/grantspec.go:196-208 | two scopes have the same key exactly when they are the same |
| `GrantSpecs.ResentReadsSame` | cli/bunker/grantspec.go:57-100 | an entry read once and marshalled again reads the same |
| `GrantSpecs.CheckScopes` | cli/bunker/grantspec.go:229-240 | the loop over keys rejects exactly the files that name a scope twice |
| `GrantSpecs.LoadSpec` | cli/bunker/grantspec.go:136-245 | a file loads exactly when it has an entry, all are well formed and no scope repeats |
| `GrantSpecs.AcceptedIffDistinct` | cli/bunker/grantspec.go:222-315 | the duplicate check passes exactly when the resolved grants have distinct scopes |
| `GrantSpecs.Resolve` | cli/bunker/grantspec.go:285-315 | the nested loops give the grants of the entries, in order; which those are is `GrantSpecs.ResolvedIff` |
| `GrantSpecs.ResolvedIff` | cli/bunker/grantspec.go:285-315 | the grants of a file are exactly those with the method and a kind of an entry, its verdict, a lapse of now plus its duration if it has one, its uses if it has those and no lapse, dated now |
| `GrantSpecs.FileAnswers` | cli/bunker/grantspec.go:136-315 | from the text: once a file that loads is applied to a session, a request an entry names is denied if the entry says deny in any case, else allowed, at every time before now plus the written duration |
| `GrantSpecs.FileLapses` | cli/bunker/grantspec.go:171-315 | from then on a human is asked, if nothing else in the file or the session answers |
| `GrantSpecs.FileUses` | cli/bunker/grantspec.go:171-315 | an entry with N uses answers the next N requests it names, and every one after that is asked |
| `GrantSpecs.RememberAllMerges` | cli/bunker/policy.go:367-405 | grants with distinct scopes, remembered onto any session, are each stored as they are and leave every other scope unchanged |
| `GrantSpecs.RememberAnyOrder` | cli/bunker/policy.go:367-405 | in any order the result is the same |
| `GrantSpecs.SpecGrantAnswers` | cli/bunker/grantspec.go:271-315 | right after a file is applied, its exact-kind grants answer, unless that would allow a sensitive kind |
| `GrantSpecs.AskedExactly` | cli/bunker/grantspec.go:329-369 | a permission list asks for exactly the scopes its items read as, each once |
| `GrantSpecs.PaddingIgnored` | cli/bunker/grantspec.go:333-341 | white space around an item changes nothing |
| `GrantSpecs.PermKeysAreScopes` | cli/bunker/grantspec.go:355-361 | the list's own repetition keys stand for scopes |
| `GrantSpecs.PermGrantsDistinct` | cli/bunker/grantspec.go:329-369 | what a list grants has distinct, grantable scopes and only allows, for good and without limit, dated now |
| `GrantSpecs.ParsePerms` | cli/bunker/grantspec.go:329-369 | the loop over keys gives exactly those grants |
| `GrantSpecs.PermsRoundTrip` | cli/bunker/grantspec.go:317-369 | a list written for distinct scopes is granted in full, in order |
| `BunkerHandler.StepKeeps` | cli/bunker/handler.go:151-250 | every step of every request keeps the handler's invariant; how a request is settled is `BunkerRun.AllowedOnlyIf` and the three outcomes |
| `BunkerHandler.StartOutcome` | cli/bunker/handler.go:154-183 | a connect on a staged pairing is let through, a session request if and only if its app is paired; all others are decided |
| `BunkerHandler.DecideOutcome` | cli/bunker/handler.go:180-210 | the grant the app's table answers by settles the request as its verdict says; without one a human is asked |
| `BunkerHandler.AnswerOutcome` | cli/bunker/handler.go:196-205 | a full queue and every verdict but Allow refuse, for every method and kind |
| `BunkerHandler.GrantsAreNoted` | cli/bunker/handler.go:229-250 | serving a request leaves an app only grants it held, but for uses, or one noted as stored for it, which `BunkerHandler.PermsNeedConsent` accounts for |
| `BunkerRun.AllowedOnlyIf` | cli/bunker/handler.go:151-215 | in every run, for every method and kind, a call is let through only on a staged connect, as a session request of a paired app, by an Allow of the grants its app held at that moment, or after a Resolve with Allow under its id |
| `BunkerRun.AskedOnlyIf` | cli/bunker/handler.go:193-198 | a call waits for a human only after the grants its app held gave neither Allow nor Deny |
| `BunkerRun.DenyIsFinal` | cli/bunker/handler.go:193-195 | a call the grants deny is refused at once and for good, whatever a human says |
| `BunkerRun.RejectionIsFinal` | cli/bunker/handler.go:198-204 | so is a call whose Add was refused or returned anything but Allow |
| `BunkerRun.StepKeeps` | cli/bunker/handler.go:151-215 | every step of handler and queue together keeps each asking request tied to an Add for its id |
| `BunkerRun.SensitiveNeedsResolve` | cli/bunker/handler.go:151-215 | in every run of the handler and its queue a sign_event of kind 0, 3 or 5, or without an event, is let through only after a Resolve with Allow under its id |
| `BunkerRun.AnswerIsTaken` | cli/bunker/handler.go:192-202 | whatever the Add returned, the handler can go on with it |
| `BunkerHandler.PermsNeedConsent` | cli/bunker/handler.go:217-243 | a client's requested permissions are stored only after its pairing was staged or a human chose to remember |
| `BunkerHandler.SpecReachesOneClient` | cli/bunker/handler.go:121-127 | all grants stored from one staged file were stored by one call |
| `BunkerHandler.RememberEach` | cli/bunker/handler.go:236-246 | the app holds what it held and the given grants over it; other apps are untouched |
| `BunkerHandler.Handler.PairApp` | cli/bunker/handler.go:229-250 | what the app holds after pairing: as before, then its permissions if kept, then the staged grants, which are used up |
| `BunkerHandler.Handler.Authorize` | cli/bunker/handler.go:151-215 | a staged connect is let through; a session request if and only if its app is paired; any other as the grant the table answers by says, or else exactly on Allow from the queue; what an app holds after its connect, and that approving once adds nothing to it |
| `Attestations.PassesIff` | signer/attest.go:24-62 | an attestation passes exactly when every condition holds, and a reported bind is the first that fails; what each bind demands is the next six rows |
| `Attestations.IdBindIff` | signer/attest.go:93-110 | a tag bind to the id holds exactly when some tag of that name has the target's id as its second element |
| `Attestations.TagBindIff` | signer/attest.go:93-110 | a tag bind to a tag holds exactly when the target has that tag with a value, and every such value is the second element of some tag of the given name |
| `Attestations.ExactIdBindIff` | signer/attest.go:66-77 | a content bind around {id} holds exactly when the trimmed content is the trimmed text with the id in it |
| `Attestations.ContainsIdBindIff` | signer/attest.go:78-88 | a contains bind around {id} holds exactly when that text occurs at some position of the content |
| `Attestations.TagTemplateBindIff` | signer/attest.go:66-88 | around {tag:U} either holds exactly when the target has that tag and the content fits the text for each of its values |
| `Attestations.BindsIdIff` | signer/policy.go:113-124 | a requirement binds the id exactly when some bind is by id or has {id} in its text |
| `Attestations.IdTemplate` | signer/attest.go:113-121 | a template around {id} stands for the text with the id in it |
| `Attestations.TagTemplate` | signer/attest.go:113-131 | a template around {tag:U} stands for one text for each value of that tag, and fails if there is none |
| `Attestations.BuildTable` | signer/evaluate.go:264-272 | the table of all checks |
| `Attestations.Solve` | signer/evaluate.go:276-292 | the search extends the picks to a full choice, or undoes its marks and no full choice starts with them |
| `Attestations.Search` | signer/evaluate.go:274-295 | finds a choice exactly when one exists |
| `Attestations.Diagnose` | signer/evaluate.go:297-318 | whether one requirement is passable, and which failure is reported |
| `Attestations.AssignAttestations` | signer/evaluate.go:264-320 | succeeds exactly when a distinct passing attestation for each requirement exists, and returns such a choice; a named requirement is the first that none passes; a conflict is reported exactly when each is passable alone but not all together |
| `Attestations.OneEventTwice` | signer/evaluate.go:259-320 | one event listed twice satisfies two valid requirements that differ only in name and is consumed twice; listed once it does not |
| `Attestations.PositionsStandForIdsIff` | signer/evaluate.go:259-320 | the choice by position agrees with a choice by id, for every list of requirements validation accepts, exactly when no two usable attestations of the request share an id |
| `Attestations.FirstPlaceholder` | signer/attest.go:115-121 | the placeholder an expansion looks at is the first of those validation saw |
| `UsedAttestations.InReachIsKept` | signer/usedset.go:66-71 | an entry dated closely enough is not pruned by any start its attestation can outlive |
| `UsedAttestations.UsedOnceIff` | signer/server.go:183-249 | no run consumes an attestation twice exactly when no write follows an unfinished line before the next start, authorizations do not overlap (as the sign lock provides), and recorded dates precede their own by less than the retention exceeds the reach |
| `UsedAttestations.StepKeeps` | signer/server.go:194-249 | under those conditions every authorization, failed write, crash and start keeps each consumed id from being consumed again |
| `UsedAttestations.NoAttestationUsedTwice` | signer/server.go:194-249 | so over any such run no attestation id is consumed by two allowed requests |
| `UsedAttestations.MisdatedTwice` | signer/server.go:232-240 | a run that consumes an attestation twice because the date recorded for it, that of the first listed under its id, is pruned early |
| `UsedAttestations.GluedTwice` | signer/usedset.go:126-139 | a run that consumes one twice because its entry was written after an unfinished line |
| `UsedAttestations.OverlapTwice` | signer/server.go:183-185 | the law rests on the sign lock: without it two authorizations that overlap would consume the same attestation |
| `UsedAttestations.AnHourIsHarmless` | signer/usedset.go:17-19 | a recorded date up to an hour early never lets an attestation be used twice |
| `UsedAttestations.UsedSet.constructor` | signer/usedset.go:42-101 | loads, prunes and rewrites: the set and the file hold the same ids |
| `UsedAttestations.UsedSet.Add` | signer/usedset.go:118-144 | the set and the file after a write that succeeds, fails part of the way, or has nothing to write |
| `UsedAttestations.PruneIds` | signer/usedset.go:66-71 | the deleting loop keeps exactly what is within the retention |
| `UsedAttestations.AuthorizeSign` | signer/server.go:194-249 | allows exactly when a choice exists, the rate does and the choice was recorded; set and file after either outcome |
| `RateLimit.RefillTwice` | signer/ratelimit.go:46-60 | refilling early and again later is refilling once |
| `RateLimit.Spending` | signer/ratelimit.go:26-60 | tokens granted are at most those held and those earned while time rises, in whatever order calls come |
| `RateLimit.GrantedInWindow` | signer/ratelimit.go:26-60 | from any bucket, calls at whatever times are granted at most N and what is earned from first to last and over every fall back |
| `RateLimit.RateHolds` | signer/ratelimit.go:26-60 | so N + N*T/Per in every window of ordered calls, after any run of a fresh limiter |
| `RateLimit.RefillIs` | signer/ratelimit.go:46-60 | the tokens at a time as a number: N at first or on another rate, else those held and N for each Per elapsed, up to N |
| `RateLimit.ReadyForetells` | signer/ratelimit.go:26-43 | Ready says what Allow would say then, a whole token or not, and changes nothing that Allow leaves |
| `RateLimit.OrderedBoundIff` | signer/ratelimit.go:26-60 | for every rate, windows of length T that fall back by F in all obey the bound for ordered calls exactly when T + F earns no whole token more than T |
| `RateLimit.ReadyIsInvisible` | signer/ratelimit.go:37-43 | dropping every Ready call, wherever it stood, changes no verdict of Allow |
| `RateLimit.ReadyVisibleIff` | signer/ratelimit.go:37-60 | a Ready call changes what some later Allow finds exactly when it read a clock behind the bucket's and the bucket was not full |
| `RateLimit.Limiter.Allow` | signer/ratelimit.go:26-35 | true exactly when the rule's bucket, refilled, holds a whole token; takes it from that bucket and touches no other |
| `RateLimit.Limiter.Ready` | signer/ratelimit.go:39-43 | true exactly when the rule's bucket, refilled, holds a whole token; takes none and touches no other bucket |
| `UnwrapGate.StepKeeps` | signer/server.go:194-273 | every step keeps the memory a duplicate-free bounded list of keys turned away for what they are; which wraps are released is the next five rows |
| `UnwrapGate.ReleasedOnlyIfListed` | signer/server.go:194-273 | in every run every release comes of a request brought in, looked up and not found in memory, let in with a token in hand if rated, and whose decrypted seal was listed, again with a token |
| `UnwrapGate.UnlistedIsTurnedAway` | signer/server.go:265-267 | a wrap whose seal is not listed is turned away, its key remembered under the policy read for it, and no bucket touched |
| `UnwrapGate.ListedIsReleasedIff` | signer/server.go:259-273 | a wrap whose seal is listed is released exactly when its rule is unrated or its bucket holds a whole token then; the memory is left alone |
| `UnwrapGate.RememberedIsTurnedAway` | signer/server.go:214-218 | a key in memory under that policy is turned away before decryption, and no other is |
| `UnwrapGate.AdmittedIff` | signer/server.go:219-226 | a wrap goes on to decryption exactly when its rule is unrated or its bucket held a whole token when the request came |
| `UnwrapGate.RefusedOnlyForContent` | signer/refused.go:45-66 | over any interleaving a key is remembered under a policy only if that wrap was turned away under it for its content; a rate denial never is |
| `UnwrapGate.OnlyReleasesPay` | signer/server.go:214-273 | a step that releases no wrap under a rule leaves its bucket with no fewer tokens at any time, whatever clock it read |
| `UnwrapGate.ReleasePaysOne` | signer/server.go:259-273 | a release under a rated rule takes exactly one token |
| `UnwrapGate.RefusedWraps.Add` | signer/refused.go:51-66 | the memory after adding: reset on another policy, oldest evicted past the bound |
| `BoundedFifo.InsertFits` | client/follow.go:111-133 | inserting keeps a list duplicate-free and within its bound, as the newest of what was inserted |
| `BoundedFifo.InsertAllRebuilds` | client/follow.go:90-95 | inserting a list that fits, one by one, rebuilds it |
| `FollowState.LoadValid` | client/follow.go:73-109 | any file loads to disjoint, duplicate-free, bounded lists with no since past now |
| `FollowState.SaveThenLoad` | client/follow.go:187-209 | saving and loading restores the state |
| `FollowState.RunKeeps` | client/follow.go:73-230 | at every point of every run of marks, saves, failed saves and loads, marks falling between the two halves of a save included: lists disjoint, duplicate-free and bounded, no since past now, and a clean state is what its file loads to or what is being written |
| `FollowState.SinceGoesBackIff` | client/follow.go:147-209 | a relay's since goes back exactly when a load finds an older one in the file, and then something was not saved |
| `FollowState.SinceFallsOnlyAtUnsavedLoad` | client/follow.go:147-209 | across any run a relay's since falls only at a load that follows an advance no completed save had seen |
| `FollowState.SinceIsLatest` | client/follow.go:147-162 | between loads a relay's since is the latest of where it stood and the dates, cut at now, of the new events it delivered: none is later, and it is one of them if it moved |
| `FollowState.JunkEvictsNothing` | client/follow.go:164-177 | no number of ids only seen pushes out a delivered id or moves a since |
| `FollowState.DeliveredStaysKnown` | client/follow.go:111-121 | a delivered id stays known until as many more as the bound were delivered |
| `FollowState.Tracker.Mark` | client/follow.go:147-162 | the new state, and whether the id was new |
| `FollowState.Tracker.MarkSeen` | client/follow.go:168-177 | the new state, and whether the id was new |
| `FollowState.LoadFollowState` | client/follow.go:73-109 | the loops over the file compute the loaded state |
| `FollowPager.PagesAdvance` | client/followpage.go:96-116 | against any relay page untils strictly decrease, stay at or above since, and number at most the page limit |
| `FollowPager.PagingComplete` | client/followpage.go:96-116 | against a relay serving its newest cap matches, with fewer than cap in any second, paging that ends uncut saw every stored event at or after since |
| `FollowPager.CompletenessThreshold` | client/followpage.go:96-116 | paging is complete for all stores with at most k events a second exactly when k is below the cap, or one full page already exceeds the byte budget |
| `FollowPager.BusySecondStops` | client/followpage.go:96-104 | cap events in one second stop the paging with an older event never handed on |
| `FollowPager.FollowPager.constructor` | client/followpage.go:53-71 | pageable exactly without limit and until, from the lowest since |
| `FollowPager.SentIs` | client/followpage.go:53-71 | on the filters alone: paged exactly when none has a limit or an until, from a since that is one of theirs and the lowest |
| `FollowPager.SawAllIds` | client/followpage.go:77-92 | after a page exactly its ids were added to those seen, and it counts as new exactly when it held one |
| `FollowPager.SawAllMin` | client/followpage.go:77-92 | the date the next page starts from is that of the oldest event of the page |
| `FollowPager.FollowPager.NextPage` | client/followpage.go:96-116 | the next until, or that there is none, and whether that was a cut |
| `FollowPager.ReadPhase` | client/follow.go:482-492 | every event of a phase is counted and handed on |
| `FollowPager.PageAll` | client/follow.go:440-506 | the paging loop ends against any relay, with untils as above; against an honest one below the density, what was handed on is all there is unless it was cut |
| `PullLoop.RoundShrinksIff` | client/neg_sync.go:322-376 | a round shortens the list exactly when the answer is empty or names an asked id |
| `PullLoop.RoundConserves` | client/neg_sync.go:322-376 | no occurrence of a needed id is dropped or counted twice |
| `PullLoop.HonestRound` | client/neg_sync.go:322-376 | against a relay with any cap of at least one, what a round gives up is not held there |
| `PullLoop.UnservedIsExact` | client/neg_sync.go:372-396 | what is left unserved are exactly the needed ids the relay does not hold |
| `PullLoop.UnaskedAnswerStalls` | client/neg_sync.go:366-376 | an answer of an id that was not asked for leaves the round as it was |
| `PullLoop.SplitBatch` | client/neg_sync.go:366-371 | the ids a batch brought and those it skipped, in order |
| `PullLoop.PullEvents` | client/neg_sync.go:305-398 | ends against every relay whose nonempty answers name an asked id, extra events or not; every needed occurrence is served or unserved once; and for every cap the unserved are exactly those not held |
| `DeleteBarrier.StepKeeps` | client/stream.go:1157-1230 | every step of loop and workers keeps lock counts, phases and trace in agreement |
| `DeleteBarrier.BarrierOrders` | client/stream.go:1157-1230 | in every interleaving a deletion's write starts after all earlier-read writes ended and ends before any later-read one starts; each write starts and ends once; at most the limit run at once |
| `DeleteBarrier.DeletionOrder` | client/stream.go:1058-1067 | what that order says of any deletion and any other event, by position in the trace |
| `DeleteBarrier.StepsRunOut` | client/stream.go:1157-1230 | every step but reading brings the events read closer to done by exactly one |
| `DeleteBarrier.NeverStuck` | client/stream.go:1157-1230 | unless everything read is done, some step other than reading is enabled |
| `PublishSlots.StepSafe` | client/stream.go:164-212 | every step keeps recorded entries within held slots and those within the limit |
| `PublishSlots.StepExactIff` | client/stream.go:378-410 | a step keeps the accounts exact exactly when it does not record an id already in flight |
| `PublishSlots.SlotsSafe` | client/stream.go:1510-1573 | in every interleaving, so releasing a slot never blocks |
| `PublishSlots.SlotsExact` | client/stream.go:1510-1573 | with distinct ids in flight, held slots are exactly the recorded ids, the writer's own and the one being released |
| `PublishSlots.AckFreesOneIff` | client/stream.go:614-627 | an ack frees exactly one slot if its id is recorded and none otherwise |
| `PublishSlots.EarlyAckKeepsSlot` | client/stream.go:1547-1562 | an ack handled between send and record leaves the slot held until another ack or a reconnect |
| `PublishSlots.LostSlotsBlock` | client/stream.go:1547-1562 | once as many ids as there are slots are lost that way the writer never gets a slot again, until another ack for one of them or a reconnect |
| `PublishSlots.LostSlotsHappen` | client/stream.go:1547-1562 | for any number of slots, a run from a fresh connection that ends there |
| `PendingHistory.KeepsMostRecent` | client/stream.go:297-315 | after any additions the history is the most recently added ids up to the cap |
| `PendingHistory.EveryRun` | client/stream.go:268-368 | after any run of additions, acks, dispatches and reconnects: within the cap, ordered by latest addition |
| `PendingHistory.EvictsOldest` | client/stream.go:297-315 | an addition evicts only from a full history, and only the entry added longest ago |
| `PendingHistory.NewGenerationExact` | client/stream.go:353-368 | a reconnect removes exactly the entries an earlier connection dispatched and keeps the rest in order |
| `PendingHistory.DispatchedDoesNotOutlive` | client/stream.go:335-368 | an entry marked under this connection is gone after the next begins |
| `PendingHistory.LinkFront` | client/stream.go:297-315 | list and table together after an addition |
| `PendingHistory.UnlinkDispatched` | client/stream.go:353-368 | the walk from the back keeps exactly the survivors, in list and table alike |
| `PendingHistory.StreamEventHistory.AddEvent` | client/stream.go:297-315 | the modelled addition, with list and table still holding the same ids |
| `PendingHistory.StreamEventHistory.Delete` | client/stream.go:317-324 | that id is gone from both, and only that |
| `PendingHistory.StreamEventHistory.Mark` | client/stream.go:335-341 | marks that id's entry with this generation, if there is one |
| `PendingHistory.StreamEventHistory.BeginGeneration` | client/stream.go:353-368 | leaves exactly the entries never dispatched |
| `LineDiff.LcsBounds` | cli/event/diff.go:169-217 | no common subsequence is longer than the table's corner |
| `LineDiff.KeptIsCommon` | cli/event/diff.go:169-217 | the kept lines of any output are a common subsequence of its two sides |
| `LineDiff.FillTable` | cli/event/diff.go:181-194 | every cell holds the longest common subsequence of the two suffixes |
| `LineDiff.Diff` | cli/event/diff.go:169-217 | the output projects back to exactly both inputs, and below the size cutoff keeps as many lines as any common subsequence has |
| `LineDiff.TagsBeyond` | cli/event/diff.go:124-145 | the tags on one side beyond the other's, occurrence by occurrence |
| `LineDiff.DiffEvents` | cli/event/diff.go:103-156 | two events are the same exactly when they agree on every field, tags as multisets; the fields listed are exactly those that differ, and the tag lists the multiset differences |

## Left out

- Signature checks, hashes, regular expressions, JSON and YAML text: uninterpreted predicates, ids as values, records as datatypes; `HistoryFile` takes the encoding of a record as a parameter with three stated properties.
- Case folding of public keys in the signer: keys are already in lower case.
- Rule selection in the signer's evaluation (selectors, deny patterns, the first matching rule): only the attestation choice, rates and unwrap decisions are modelled.
- The filters a follow resumes with after a reconnect, and the signer policy's other validators: a minimum and chains of single tests.
- Failures of the event log's own writes, and a bunker started without a log: every append succeeds.
- PullLoop.PullEvents: timeouts, cancellation and connection errors end the loop early and are not modelled.
- UsedAttestations.UsedOnceIff: the socket server that holds the sign lock is not part of this model; that authorizations do not overlap is one of its conditions.
- RateLimit.ReadyIsInvisible: for calls in the order of their times; RateLimit.ReadyVisibleIff says when a call that read an older clock shows.
- HistoryFile.AppendAfterCut: takes an encoding in which a fragment followed by a record never parses, as JSON objects behave.
- HistoryDaemon.RunMirrors: resolved ids must be new to the log, or already out of the tail when a compaction is due, because the equality fails otherwise, as HistoryDaemon.MirrorKeptIff shows.
- FollowPager.PagingComplete: one filter, a relay whose stored events do not change, and no page refused; several filters paged together are not shown complete.
- PublishSlots.SlotsExact: needs distinct ids in flight, as PublishSlots.StepExactIff shows; an unlimited destination (no semaphore) is not modelled.
- DeleteBarrier.BarrierOrders: no shutdown while events are in flight, and store writes that end.
- ApprovalQueue.EveryRun: both callbacks are registered before the first request; the order of a listing is not stated, as it iterates a map.
- BunkerRun.SensitiveNeedsResolve: the Resolve was of a request under that id; when that was the same request is ApprovalQueue.OwnDecisionIff.
- BunkerRun.AllowedOnlyIf: the same holds of the Resolve among its grounds.
- HistoryJournal.TailIsWhatWasRecorded: over the runs of HistoryDaemon.RunMirrors; when an id is resolved again while its older entry is in the tail, a signature reaches only the newer one.
- GrantStore.Store.constructor: a session file edited by hand to hold two grants of one scope is loaded as it is, and the table theorems do not cover it.
- GrantStore.RunRefines: grants of sessions are written to disk after each change; a failed write is ignored by the code and not modelled.
- RateLimit.RateHolds: exact real arithmetic in place of floating point.
- PendingHistory.StreamEventHistory.AddEvent: the linked list is a sequence, so element pointers and their reuse are not captured.
- LineDiff.DiffEvents: tags are compared as lists of strings, not through their JSON keys.
- Terminal interface, command wiring, relay connections, recovery of streams, login, DM and Blossom commands: input and output around the engines, or easy members only.
- Conservation of every streamed event across reconnects: not something the code guarantees.
