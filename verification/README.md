# Legarya protocol models

Dafny models of the backend's database-fenced protocols and proofs of what every run of them keeps. `dafny verify dfyconfig.toml` checks all of it.

A database transaction is one atomic step; storage, provider and browser work happens between steps, so workers and requests interleave at transaction boundaries and may crash there. Times are integers (microseconds in the voice accounting). Random tickets, tokens and row ids are integers that are never drawn twice. Each protocol has its steps as functions over a value holding its tables, an invariant that every step keeps, and theorems over whole runs; where the source updates tables or objects in place, a class does the same and each of its methods is proved to leave exactly the state the step function describes.

- **Live calls.** `TranscriptText`, `TranscriptOrdering`, `TranscriptAnswers`: transcript text rules, the reorder buffer, and what it answers. `PlaybackOutput`, `PlaybackCompletion`, `PlaybackRefusals`: the gate that counts played samples and issues one full-playback proof, when it does so, and what it refuses. `VoiceLedger`: voice intervals, their day receipts and the capped quota. `LiveSessions`, `LiveSafety`, `LiveGuarantees`, `LiveContinuity`, `LiveResumption`, `LiveAnswers`, `LiveCalls`: sessions, tickets, leases, revocation and spoken turns, over that ledger.
- **Plan accounting.** `VoiceLedger` again, `Reconciler`: text receipts and the wrapping repair cursor, `TextQuota`: admission of text turns within the day's limit, `Sums`: finite sums for the aggregate queries.
- **Derived profiles.** `PersonalityQueue`, `PersonalityRetries`: invalidation, the rebuild queue and the reader, with the derivation as an arbitrary function.
- **Media.** `MediaLifecycle`, `MediaSafety`, `MediaGuarantees`, `MediaRequests`, `MediaProgress`, `MediaFailures`, `MediaTables`: uploads, jobs, review, deletion, purge and the erasure of a whole Legacy, with the object store and the storage allowance of one owner.
- **Effects and limits.** `TurnEffects`, `Streaks`, `Limiters`.

## Where the code differs from what it says

- `release_unanswered` promises that a crashed connection can never hold a chat busy (backend/app/services/realtime_transcripts.py:231-232). `reconnect` commits a recovery that ended the session without calling it (backend/app/services/realtime_sessions.py:186-190), after which no operation releases the turns of that row. `LiveGuarantees.StepStrands` gives the exact condition, `StrandedForever` the consequence, `CrashedCallStrandsItsTurn` the run.
- A receive that finds its reservation expired starts the deletion without a purge job (backend/app/services/media_sources.py:219-221); only a deletion request for the whole Legacy adds one. `MediaGuarantees.PurgeAwaitsUnlessExpired` shows that nothing else loses a purge job, `MediaFailures.ExpiredUploadStrands` gives the run, `MediaFailures.StrandsForever` how long it lasts.
- After a failed commit `receive` deletes what it stored, but only after the rollback has released its locks (backend/app/services/media_sources.py:236-238). In a store without versions that delete can remove the bytes of a repeated upload that has committed since. `MediaGuarantees.OriginalsKeptUnlessLate` gives the exact condition, `MediaFailures.RepeatedUploadLosesItsBytes` the run.
- `Output.provider` counts a frame before it refuses it for overrun (backend/app/services/realtime_responses.py:172-178), so the buffer invariant survives every call but that one: `PlaybackOutput.ProviderBuffer` gives the exact condition, `PlaybackOutput.TwentyFirstSecondOverruns` a run.
- The five-minute limit of the rebuild delay is never reached (backend/app/services/personality_worker.py:106): `PersonalityQueue.FailedRetriesSoon`.

## Model

| member | source | states |
|---|---|---|
| `TranscriptText.NormalizeIsIdempotent` | backend/app/services/realtime_transcripts.py:32-37 | normalising an accepted transcript again changes nothing |
| `TranscriptText.JoinStaysNormalized` | backend/app/services/realtime_responses.py:206 | joining non-empty normalised texts with single spaces gives a normalised text, as long as it stays within 8000 characters |
| `TranscriptText.WordsOfJoin` | backend/app/services/realtime_transcripts.py:37 | splitting undoes joining: the words of joined words are those words |
| `TranscriptText.WordsSplitAtSpace` | backend/app/services/realtime_transcripts.py:37 | the words of two texts around a white space are the words of the first and then those of the second |
| `TranscriptOrdering.TranscriptOrder.Observe` | backend/app/services/realtime_transcripts.py:71-110 | one provider event: identity checks, item and queue limits, predecessor conflicts, final and failure conflicts, and the state afterwards |
| `TranscriptOrdering.TranscriptOrder.Ready` | backend/app/services/realtime_transcripts.py:112-124 | the release loop: everything reachable along committed predecessor links whose item is final or failed |
| `TranscriptOrdering.TranscriptOrder.IsUnfinished` | backend/app/services/realtime_transcripts.py:67-69 | unfinished exactly while someone speaks or an item is unresolved |
| `TranscriptOrdering.RunIsOrdered` | backend/app/services/realtime_transcripts.py:71-124 | over every error-free run the released items are the predecessor chain from None, each item once, each with the content it has now |
| `TranscriptOrdering.RunExhausts` | backend/app/services/realtime_transcripts.py:112-124 | after a run that ends with ready, the next item of the chain, if any, is neither final nor failed: the chain was released as far as it goes |
| `TranscriptOrdering.RunFacts` | backend/app/services/realtime_transcripts.py:87-104 | over every error-free run an item is committed, failed or final with a text exactly when an event said so |
| `TranscriptOrdering.MoreEventsReleaseMore` | backend/app/services/realtime_transcripts.py:71-124 | what was released is never taken back, whatever the order: an error-free run that ends with ready releases at least what any error-free run over some of the same events did, as a prefix with the same contents |
| `TranscriptOrdering.Confluence` | backend/app/services/realtime_transcripts.py:71-124 | any two error-free runs with the same events, in any order and with ready anywhere, release the same list when both end with ready |
| `TranscriptAnswers.AnswerIsExact` | backend/app/services/realtime_transcripts.py:71-110 | over every error-free run, the answer to the next event, told from nothing but the events seen and the items released: an overrun exactly for a new item when 256 were seen or as many wait as the depth allows, and the exact condition of each link, final and failure conflict |
| `TranscriptAnswers.FinishedIsAllReleased` | backend/app/services/realtime_transcripts.py:67-69 | over every error-free run the buffer is finished exactly when the last speech event was no start and every item seen was released |
| `PlaybackOutput.Output.Receive` | backend/app/services/realtime_responses.py:123-213 | one provider event: fencing by generation and response, part placement, audio and text limits, the summary and the seal |
| `PlaybackOutput.Output.Confirm` | backend/app/services/realtime_responses.py:215-242 | one browser acknowledgement: stale, repeated, progress and drain, with the proof it may return |
| `PlaybackOutput.Output.Summarize` | backend/app/services/realtime_responses.py:204-206 | the two summary fields are recomputed from the parts in index order |
| `PlaybackOutput.ProviderBuffer` | backend/app/services/realtime_responses.py:159-182 | provider keeps the buffer invariant (outstanding is exactly played+1..sequence, strictly increasing counts ending at samples, at most 512 frames, 480000 pending and 2880000 total samples) exactly when the event is not a decodable audio frame that its part would accept and whose samples pass one of the three caps |
| `PlaybackOutput.TwentyFirstSecondOverruns` | backend/app/services/realtime_responses.py:172-178 | a run from a new output that breaks it: twenty unheard one-second frames are accepted, the next is refused and yet counted |
| `PlaybackOutput.AcknowledgeBuffer` | backend/app/services/realtime_responses.py:227-242 | acknowledge keeps that invariant and never moves the acknowledged position back |
| `PlaybackOutput.SealFreezes` | backend/app/services/realtime_responses.py:145-213 | after the seal no provider event changes the parts, the counters, the response or the seal |
| `PlaybackOutput.ProofIsSound` | backend/app/services/realtime_responses.py:233-238 | a proof is issued only for a sealed response whose parts are 0..n-1, each with audio, done and final; it carries the sum of the samples and the finals joined in order, at most 8000 characters, and terminate stores that text unchanged |
| `PlaybackOutput.RunIsGood` | backend/app/services/realtime_responses.py:123-242 | over every error-free run the buffer and part invariants hold and every proof issued so far is sound for the present state |
| `PlaybackOutput.ProofsAgree` | backend/app/services/realtime_responses.py:233-238 | all proofs one output ever issues are equal |
| `PlaybackCompletion.SealIsExact` | backend/app/services/realtime_responses.py:204-212 | a call that leaves the response over draws the seal exactly when the parts are then whole (0..n-1, each with audio, done and a final text), and announces it last, with the present sequence, samples and seal |
| `PlaybackCompletion.EndIsAnswered` | backend/app/services/realtime_responses.py:198-208 | the end of the response is answered with a failure exactly when it was not completed or is not whole |
| `PlaybackCompletion.RunSealsWhole` | backend/app/services/realtime_responses.py:123-213 | over every error-free run, a response that is over is sealed exactly when it is whole |
| `PlaybackCompletion.AcknowledgeIsExact` | backend/app/services/realtime_responses.py:215-242 | over every error-free run, what each acknowledgement does, told from the frames that arrived: taken exactly for a position that was sent and not yet passed, and a proof exactly at the last position of the sealed response |
| `PlaybackCompletion.PlayedIsProved` | backend/app/services/realtime_responses.py:123-242 | any response within the caps, in any number of parts and frames and with any texts, is proved once it was sent whole and played to its end; the proof carries its last sequence, all its samples and its joined texts |
| `PlaybackRefusals.RefusesIllegal` | backend/app/services/realtime_responses.py:123-213 | a provider event is refused exactly when it is out of turn, malformed or over a cap, and as an overrun exactly for a frame in turn that is too long or passes the buffer, response or outstanding cap |
| `VoiceLedger.ComputeSegments` | backend/app/services/plan_usage.py:116-125 | the cursor loop yields, in ascending days, exactly what of the interval falls in each UTC day, and the pieces add up to its length |
| `VoiceLedger.SegmentsFind` | backend/app/services/plan_usage.py:116-125 | a day has a piece exactly when the interval touches it, and the piece is all of the interval that falls there |
| `VoiceLedger.VoiceAccounts.RecordedTotal` | backend/app/services/plan_enforcement.py:76-79 | the sum of the user's receipts for a mode and day, optionally without one operation key |
| `VoiceLedger.VoiceAccounts.VoiceRemaining` | backend/app/services/plan_enforcement.py:102-111 | no bound for an exempt user; otherwise never negative, zero exactly when the day's recorded use has reached the allowance, and before that exactly what is left, in milliseconds |
| `VoiceLedger.VoiceAccounts.QuotaReceipts` | backend/app/services/plan_enforcement.py:121-135 | the quota receipts of an interval since the cutover, day by day, each capped by what the user's other receipts leave |
| `VoiceLedger.VoiceAccounts.VoiceReceipts` | backend/app/services/plan_usage.py:128-135 | both sets of day receipts of an interval, with the insert-or-update rule that does not reopen a completed receipt |
| `VoiceLedger.VoiceAccounts.Track` | backend/app/services/plan_usage.py:138-157 | when an interval is opened, extended, ended or left alone, and the receipts written with it |
| `VoiceLedger.VoiceAccounts.CloseOrphan` | backend/app/services/plan_usage.py:202-208 | an orphaned interval ends where it was last observed, with an uncertain tail, and its receipts are completed |
| `VoiceLedger.WriteKeeps` | backend/app/services/plan_enforcement.py:121-135 | writing an extended interval keeps the voice receipts exact and, for users who are not exempt, each day's recorded quota equal to min(allowance, observed time since the cutover) |
| `VoiceLedger.CapKeepsTotal` | backend/app/services/plan_enforcement.py:129-133 | the arithmetic of one capped receipt: the day's total becomes min(limit, observed) and the receipt itself does not drop |
| `VoiceLedger.WriteNeverLowers` | backend/app/services/plan_enforcement.py:121-135 | no quota receipt is removed or lowered by a write, not even one whose day is written again |
| `VoiceLedger.WriteLater` | backend/app/services/plan_usage.py:78-86 | ended intervals and completed receipts are frozen, open ones only grow |
| `VoiceLedger.ReceiptsAddUp` | backend/app/services/plan_usage.py:116-135 | the voice receipts of an interval sum to observed_until - started_at, each inside its own UTC day |
| `LiveCalls.CallTable.RecoverAt` | backend/app/services/realtime_sessions.py:94-116 | recovery of one row: session, ticket, reconnect and lease expiry, or the move to reconnecting, with the interval it ends |
| `LiveCalls.CallTable.FinishAt` | backend/app/services/realtime_sessions.py:85-91 | the terminal row: fields cleared, generation raised, revoked_at only for revocations |
| `LiveCalls.CallTable.AuthorizeCall` | backend/app/services/realtime_sessions.py:146-177 | a new session, or the refusal and a rollback of every recovery made on the way |
| `LiveCalls.CallTable.ReconnectCall` | backend/app/services/realtime_sessions.py:180-200 | a new ticket and generation, a refusal with rollback, or a conflict whose recovery is committed |
| `LiveCalls.CallTable.ConsumeTicket` | backend/app/services/realtime_sessions.py:203-230 | every refusal of a ticket in order, or the connection it opens |
| `LiveCalls.CallTable.RenewOwned` | backend/app/services/realtime_sessions.py:233-255 | the lease is renewed and the voice time tracked, also when the allowance turns out to be used up |
| `LiveCalls.CallTable.CloseConnection` | backend/app/services/realtime_sessions.py:258-283 | closing by the owner: lost authorization overrides the reason, a disconnect keeps the session open, anything else ends it |
| `LiveCalls.CallTable.Revoke` | backend/app/services/realtime_sessions.py:286-303 | every matching row of the actor is revoked, and a logout also stamps rows that had already ended |
| `LiveCalls.CallTable.SweepRow` | backend/app/services/realtime_sessions.py:314-322 | the recovery pass over one actor's active row |
| `LiveCalls.CallTable.RecoverAll` | backend/app/services/realtime_sessions.py:153-157 | authorize's pass over the actor's active rows |
| `LiveSafety.RunKeeps` | backend/app/services/realtime_sessions.py:85-322 | every run keeps the lease and terminal row conditions, one open session per actor, tickets held only by the session they were drawn for, non-overlapping voice intervals and an exact ledger; and it undoes nothing of what was true before it (terminal states, generations, logout marks, spent tickets, ended intervals) |
| `LiveSafety.TrackKeeps` | backend/app/services/plan_usage.py:138-157 | tracking a call leaves an actor's intervals pairwise disjoint, each billed once |
| `LiveSafety.RevokeFromKeeps` | backend/app/services/realtime_sessions.py:286-303 | a revocation of any number of rows keeps the invariant |
| `LiveSafety.ReconcileKeeps` | backend/app/services/plan_usage.py:190-208 | closing an orphaned interval keeps the invariant, also beside a live call |
| `LiveGuarantees.EveryRunBillsOnce` | backend/app/services/plan_usage.py:138-157 | over every run: two intervals of one actor never overlap, the day receipts of each sum to its length, and each day's quota equals min(allowance, observed) |
| `LiveGuarantees.RecordsOnlyGrow` | backend/app/services/plan_usage.py:78-86 | over every run no interval or receipt is lost, lowered or reopened |
| `LiveGuarantees.FencedForever` | backend/app/services/realtime_sessions.py:233-283 | once a connection has left connecting or connected, nothing done in its generation's name is accepted or changes anything, whatever owner is given: owned, close_owned, bind_once and locked_turn |
| `LiveGuarantees.HeldOrFenced` | backend/app/services/realtime_sessions.py:85-116 | in every later state a connection either still holds its session with its owner and generation, or is fenced |
| `LiveGuarantees.GenerationsIncrease` | backend/app/services/realtime_sessions.py:203-230 | every successful consume of a session returns a strictly larger generation than all before it |
| `LiveContinuity.GrantedTicketWorks` | backend/app/services/realtime_sessions.py:132-137 | after any run in which nobody presents a granted ticket from its origin, reconnects the session, revokes its access or removes its row, the ticket connects the session exactly while ticket, reconnect window and session have time left and the allowance is not used up |
| `LiveGuarantees.ConsumedOnce` | backend/app/services/realtime_sessions.py:203-230 | over every run a ticket is consumed at most once, and only for the session it was drawn for |
| `LiveGuarantees.ReconnectKillsTickets` | backend/app/services/realtime_sessions.py:194-200 | after a granted reconnect no earlier ticket of the session is ever consumed |
| `LiveGuarantees.LogoutCutsOff` | backend/app/services/realtime_sessions.py:146-152 | after a logout that matched a session row, no token issued up to then authorizes again while that row is kept |
| `LiveGuarantees.ConflictOnlyWhileOpen` | backend/app/services/realtime_sessions.py:153-160 | authorize reports a conflict exactly while one of the actor's rows is still open after recovery |
| `LiveContinuity.OnlyUnexpiredBars` | backend/app/services/realtime_sessions.py:94-116 | whatever ran in between, an actor is refused a new call with a conflict only if a session of theirs is open whose expiry is still ahead; one that was there before counts only up to the expiry it had then |
| `LiveContinuity.ConnectionStays` | backend/app/services/realtime_sessions.py:203-255 | a connection just opened or renewed is accepted at the end of any run, until its lease or its access ends, exactly when nothing in the run closed it, revoked it or removed its row: no other call, recovery pass, sweep or reconciliation ends it |
| `LiveContinuity.LeaseIsLimit` | backend/app/services/realtime_sessions.py:233-246 | once its lease is over it is never accepted again, whatever ran, unless it was renewed in between |
| `LiveResumption.DisconnectIsResumable` | backend/app/services/realtime_sessions.py:258-283 | after a disconnect at t and any run in which nobody resumes, revokes or removes the session, a reconnect is granted exactly to its actor, from its origin, with its scope, a fresh ticket and allowance left, exactly while the moment is before t + reconnect and before the session's and sign-in's expiry |
| `LiveResumption.SilenceIsResumable` | backend/app/services/realtime_sessions.py:94-116 | the same for a connection that went silent: exactly from the end of its lease until lease + reconnect |
| `LiveResumption.RecoverySpendsNothing` | backend/app/services/plan_usage.py:138-157 | recovering a silent call uses up nobody's allowance |
| `LiveAnswers.AuthorizeIsExact` | backend/app/services/realtime_sessions.py:146-177 | whom authorize turns away and why, in order: logged out, a call of theirs still open, as many sessions within the last minute as the settings allow, no scope, allowance used up; and the session it creates for everyone else |
| `LiveAnswers.ReconnectIsExact` | backend/app/services/realtime_sessions.py:180-200 | whom reconnect turns away and why, in terms of the row before recovery, and the generation it grants otherwise |
| `LiveAnswers.ConsumeIsExact` | backend/app/services/realtime_sessions.py:203-230 | a ticket connects exactly the session it is the unused ticket of, in time, from its origin, with its scope and while allowance is left; it is then used up and the owner holds a new generation for one lease, and otherwise nothing changes |
| `LiveAnswers.OwnedIsExact` | backend/app/services/realtime_sessions.py:233-255 | owned renews exactly the connection that is in its call with its access intact, reports the plan limit exactly when what is now recorded uses the allowance up, and tells everyone else why |
| `LiveAnswers.AdmitIsExact` | backend/app/services/realtime_transcripts.py:136-186 | a spoken turn is admitted exactly for its actor's ready call while no turn of its chat is open, and binds the call to that chat |
| `LiveAnswers.CloseIsExact` | backend/app/services/realtime_sessions.py:258-283 | a close is taken exactly from the connection's own owner; lost access counts more than the reason given, a disconnect leaves the session to be resumed, and anything else files it as ended, revoked or failed under its reason |
| `LiveAnswers.CloseBills` | backend/app/services/plan_usage.py:138-157 | a close bills what was observed of the call up to the close, within its session and sign-in |
| `LiveAnswers.SweepIsExact` | backend/app/services/realtime_sessions.py:306-322 | what a sweep leaves of an active session in each case, and that a silent call is billed only up to where it was last observed, with an uncertain tail |
| `LiveAnswers.ReconcileIsExact` | backend/app/services/plan_usage.py:190-208 | reconciliation ends exactly an open interval whose connection is gone or no longer leased, where it was last observed |
| `LiveGuarantees.RenewalObserves` | backend/app/services/plan_usage.py:138-157 | every renewal of a ready connection extends its interval to the present moment, opening it there for its actor and mode if there was none, unless it was already closed as an orphan |
| `LiveGuarantees.CloseLeavesNothing` | backend/app/services/realtime_sessions.py:258-283 | a close leaves no owner, ticket, open turn or open interval of the connection; the session stays open exactly for a disconnect while access and time last, and no other session changes |
| `LiveGuarantees.RevocationLeavesNothing` | backend/app/services/realtime_sessions.py:286-303 | after a revocation every matching session is over; those that were open are revoked with its reason and moment and keep no ticket or open turn; no other is touched |
| `LiveGuarantees.StepStrands` | backend/app/services/realtime_transcripts.py:228-239 | the documented promise that a crashed connection leaves no turn open holds through a step exactly when the step is not a reconnect that finds a connected call with an open turn past its expiry or past lease plus reconnect time |
| `LiveGuarantees.StrandedForever` | backend/app/services/realtime_sessions.py:186-190 | a turn left open that way is never closed, and its chat accepts no further spoken turn while the session row is kept |
| `LiveGuarantees.CrashedCallStrandsItsTurn` | backend/app/services/realtime_sessions.py:180-190 | under every configuration that lets a call begin, the five-step run begin, connect, ready, ask, late reconnect ends with such a turn |
| `PersonalityQueue.ProfileTable.Invalidate` | backend/app/services/personality_invalidation.py:26-57 | every listed Legacy that exists gets a new generation and no profile, a live lease is left alone, and nothing else changes |
| `PersonalityQueue.ProfileTable.ClaimNext` | backend/app/services/personality_worker.py:39-56 | the first listed candidate that is still available at its listed generation is leased; none is, if none is available |
| `PersonalityQueue.ProfileTable.BuildOne` | backend/app/services/personality_worker.py:58-87 | published exactly when the row is still held at the claimed generation, the derivation succeeds and the lease still runs; failed or released otherwise |
| `PersonalityQueue.ProfileTable.FailBuild` | backend/app/services/personality_worker.py:95-108 | the retry delay for the same generation, an immediate retry for a newer one, and nothing for a lost lease |
| `PersonalityQueue.ProfileTable.ReleaseStale` | backend/app/services/personality_worker.py:89-93 | the row goes back to the queue only if this worker still holds it |
| `PersonalityQueue.RunKeeps` | backend/app/services/personality_worker.py:39-108 | over every interleaving of workers, evidence changes and crashes, what a worker has read is current for as long as its generation is |
| `PersonalityQueue.ReadersSeeFreshProfiles` | backend/app/services/legacy_personality.py:284-299 | over every run current_profile returns nothing or exactly what deriving the present evidence at the present generation would give |
| `PersonalityQueue.ReadyIsServed` | backend/app/services/legacy_personality.py:291-297 | a profile is returned exactly when the row is ready: the reader's further checks never withhold one |
| `PersonalityQueue.PublishedOnce` | backend/app/services/personality_worker.py:70-80 | of two published builds of one Legacy the later one has the larger generation |
| `PersonalityQueue.NeverStuck` | backend/app/services/personality_worker.py:39-56 | over every run a row that is not ready can be claimed from the later of its lease's end and its retry time, and one worker that is then left alone makes it served or schedules its retry |
| `PersonalityQueue.UndisturbedBuild` | backend/app/services/personality_worker.py:58-87 | a worker left alone for the length of its lease makes the row served, or schedules its retry |
| `PersonalityQueue.FailedRetriesSoon` | backend/app/services/personality_worker.py:106 | over every run a failed row can be claimed again at most 256 seconds after its failure, so the limit of 300 never applies |
| `PersonalityRetries.FreshEvidenceIsClaimable` | backend/app/services/personality_invalidation.py:26-57 | whatever failed before, after a change of the evidence and any run without a new claim, nothing is served and a claim is granted exactly when no lease from before the change still runs: no retry delay is left, also when older workers fail or give up meanwhile |
| `PersonalityRetries.PublishIsExact` | backend/app/services/personality_worker.py:70-84 | a finished build is served exactly when its worker still holds the row, at the claimed generation, on a lease that has not run out; otherwise nothing changes |
| `PersonalityRetries.RetryIsExact` | backend/app/services/personality_worker.py:95-108 | after the n-th failed build of the present evidence, and any claims, a claim is granted exactly from 2^min(n, 8) seconds later on |
| `MediaTables.SourceTables.Occupied` | backend/app/services/plan_usage.py:216-228 | capacity: the bytes of stored originals plus the declared sizes of unexpired reservations |
| `MediaTables.SourceTables.CreateUpload` | backend/app/services/media_sources.py:157-207 | a reservation, with its answer: made when the Legacy is open, the request key is new and the size fits; the existing source for a repeated key, a conflict for a changed request, or the refusal |
| `MediaTables.SourceTables.ReceiveUpload` | backend/app/services/media_sources.py:209-241 | a receive, with its answer: expired, wrong size, already stored, or stored and queued |
| `MediaTables.SourceTables.Delete` | backend/app/services/media_sources.py:252-275 | deletion: generation raised, jobs cancelled, candidates withdrawn, links unsupported, a purge job added |
| `MediaTables.SourceTables.Purge` | backend/app/services/media_worker.py:162-184 | the object goes first, and the source is deleted only by the worker that still holds the job at the source's generation |
| `MediaTables.SourceTables.EraseLegacy` | backend/app/services/legacy_deletion.py:123-157 | every registered key is erased before any row is dropped, and the rows are dropped only if the recheck passes |
| `MediaTables.SourceTables.MayDrop` | backend/app/services/legacy_deletion.py:135-143 | the recheck: deletion requested, everything deleted and purged, registry unchanged |
| `MediaSafety.RunKeeps` | backend/app/services/media_sources.py:157-284 | every run of uploads, workers, reviews, deletions and crashes keeps the invariant on sources, objects, jobs, links, candidates and load |
| `MediaSafety.BeginReceiveKeeps` | backend/app/services/media_sources.py:209-225 | a receive keeps the load within the allowance while it holds the owner lock, also when the clock passes its expiry meanwhile |
| `MediaSafety.EraseAllLaterKeeps` | backend/app/services/legacy_deletion.py:56-67 | requesting a Legacy's deletion leaves each of its sources on its way out |
| `MediaGuarantees.StaysWithinAllowance` | backend/app/services/media_sources.py:157-241 | over every run stored originals plus unexpired reservations never exceed the owner's limit |
| `MediaGuarantees.ErasedForever` | backend/app/services/media_worker.py:82-184 | deleting and deleted are never left through any worker result, retry, upload or crash, and nothing is ever stored again under the key of a deleted or dropped source |
| `MediaGuarantees.NoStrayObjects` | backend/app/services/media_sources.py:226-241 | over every run each stored object belongs to a registered source that is not deleted, also after a crash between storing and committing |
| `MediaGuarantees.DroppedForever` | backend/app/services/legacy_deletion.py:123-157 | a Legacy is dropped only after every registered key was erased and the registry unchanged; none of its sources has rows, links, candidates or bytes then or later |
| `MediaGuarantees.UsableIsSupported` | backend/app/services/legacy_personality.py:80-84 | over every run a memory that came from sources passes the evidence filter only while one of them is neither deleting nor deleted |
| `MediaGuarantees.WithdrawnForever` | backend/app/services/media_sources.py:252-275 | over every run after a source began to be deleted, none of its candidates is open or keeps any text, none of its links supports a memory, and a memory all of whose sources went that way is unusable |
| `MediaGuarantees.ApprovalIsFinal` | backend/app/services/media_review.py:165-220 | over every run before and after it: an approved candidate stays preserved until its Legacy is dropped, no second link is ever made for it, and its link supports the memory until its source is deleted |
| `MediaGuarantees.FencedWorkers` | backend/app/services/media_intelligence.py:300-353 | once a source is being deleted, no result of an earlier claim, analysis, persistence, failure or visual verdict, changes anything, ever |
| `MediaGuarantees.PurgeAwaitsUnlessExpired` | backend/app/services/media_sources.py:219-221 | that every source being deleted has a live purge job holds through a step exactly when the step is not a receive that finds its reservation expired |
| `MediaGuarantees.OnlyExpiredAreLost` | backend/app/services/media_sources.py:219-221 | over every run the deleting sources without a live purge job are among those expired by receive |
| `MediaFailures.ExpiredUploadStrands` | backend/app/services/media_sources.py:219-221 | a run from the empty database, for every allowance and upload: reserve, let the reservation expire, receive; it ends with a source being deleted and no purge job for it |
| `MediaFailures.StrandsForever` | backend/app/services/media_sources.py:252-275 | such a source stays so over every run in which the deletion of its whole Legacy is not requested |
| `MediaGuarantees.UndisturbedPurge` | backend/app/services/media_worker.py:162-184 | a purge worker left alone erases the object and completes the deletion |
| `MediaGuarantees.UploadRoundTrip` | backend/app/services/media_sources.py:209-241 | a reservation received in one go is stored as sent, counted once and queued, clean unless it awaits a visual check |
| `MediaRequests.OneSourcePerRequest` | backend/app/services/media_sources.py:183-186 | over every run two sources of one Legacy with the same request key are the same source |
| `MediaRequests.RepeatIsAnswered` | backend/app/services/media_sources.py:183-186 | once a request key was accepted, after any run that keeps its source, repeating it leaves the tables unchanged and is answered with that source, or with a conflict if the purpose or digest differ |
| `MediaRequests.CreateIsExact` | backend/app/services/media_sources.py:187-199 | a new request of an open Legacy is refused for the allowance exactly when its size exceeds what stored originals and unexpired reservations leave; otherwise it is reserved with an extraction job that waits |
| `MediaRequests.ReceiveIsExact` | backend/app/services/media_sources.py:209-225 | a receive is taken exactly for an open reservation, in time and with the declared number of bytes; exactly a late one starts the deletion, and any other changes nothing |
| `MediaProgress.UndisturbedExtraction` | backend/app/services/media_intelligence.py:300-353 | a worker left alone turns its proposals into open candidates of the source's generation; the source is ready if any is new and partially ready if there were none |
| `MediaProgress.UndisturbedValidation` | backend/app/services/media_worker.py:83-136 | a worker left alone decides on a visual reference as its verdict says |
| `MediaProgress.FailedIsRetried` | backend/app/services/media_sources.py:277-284 | a failed claim leaves the source failed, and a retry puts it back for any worker to claim at once |
| `MediaProgress.FailedPurgeWaits` | backend/app/services/media_worker.py:172-175 | a purge whose storage delete failed keeps its job, claimable again exactly thirty seconds later |
| `MediaProgress.DeletionIsExact` | backend/app/services/media_sources.py:252-275 | a deletion cancels exactly the source's unfinished jobs, withdraws its links, adds one claimable purge job at the new generation, and leaves every other source's rows alone |
| `MediaProgress.RequestIsComplete` | backend/app/services/legacy_deletion.py:45-77 | over every run before it, a deletion request is taken exactly for an open Legacy none of whose sources is being received, and leaves every source of it deleted or with an unfinished purge job, those that had lost theirs among them |
| `MediaProgress.UndisturbedErasure` | backend/app/services/legacy_deletion.py:123-157 | once every source of a requested Legacy is deleted and purged, a worker left alone drops the Legacy and nothing of any other |
| `MediaProgress.ApprovalIsExact` | backend/app/services/media_review.py:165-220 | an approval is taken exactly for an open candidate in the version that was read, with its text, whose source is at the generation it was proposed for, clean and not on its way out |
| `MediaProgress.SkipIsFinal` | backend/app/services/media_review.py:157-164 | over every run a skipped candidate stays skipped until its Legacy is dropped and never supports a memory |
| `MediaGuarantees.OriginalsKeptUnlessLate` | backend/app/services/media_sources.py:235-240 | accepted bytes stay stored through a step exactly when it is not the late delete of an upload whose commit failed and which was meanwhile repeated |
| `MediaFailures.RepeatedUploadLosesItsBytes` | backend/app/services/media_sources.py:235-240 | a run from the empty database, for every allowance and upload: reserve, receive with a failed commit, receive again, and then the late delete; it ends with an accepted original, not on its way out, whose bytes are gone |
| `TurnEffects.EffectTables.ApplyEffects` | backend/app/services/turn_effects.py:34-94 | one undisturbed run: what is saved, what is applied and counted, and the answer, from each state of the two receipts |
| `TurnEffects.EffectTables.RecordBuilderActivity` | backend/app/services/progression.py:133-156 | the day's count rises by one, and the first contribution of the day is told apart |
| `TurnEffects.RunKeeps` | backend/app/services/turn_effects.py:34-94 | every interleaving of runs, failed stores, crashes and repeats keeps receipts, applied changes and day counts in step |
| `TurnEffects.ExactlyOnce` | backend/app/services/turn_effects.py:43-85 | over every run a turn's memory change commits once if its receipt is positive and never otherwise, and each day's count is the number of turns counted for it plus activity from elsewhere |
| `TurnEffects.SameAnswer` | backend/app/services/turn_effects.py:66-94 | every repeated run of a turn returns the same saved count and first-today flag |
| `TurnEffects.OneFirstToday` | backend/app/services/progression.py:133-156 | no two turns of one Legacy are both told that they were the first of the same day |
| `TurnEffects.UndisturbedRun` | backend/app/services/turn_effects.py:34-94 | whatever other runs are doing, a run left alone with its turn saves the result once, counts the day once, and answers with the number of changes and whether the day had no activity before |
| `Reconciler.UsageTables.TrackReceipt` | backend/app/services/plan_usage.py:89-99 | one text turn's receipt is inserted or updated, spoken turns and settled receipts are left alone |
| `Reconciler.UsageTables.ReconcileTurns` | backend/app/services/plan_usage.py:180-187 | one pass: the next batch after the cursor is tracked and the cursor moves on or wraps |
| `Reconciler.TwoCyclesSettle` | backend/app/services/plan_usage.py:168-189 | from any cursor, after 2 * (N / batch + 1) passes over N turns every answered text turn is charged, every failed one released, every open one reserved, and no spoken turn has a receipt |
| `Reconciler.LostTrackingIsRepaired` | backend/app/services/plan_usage.py:168-189 | the same after any run in which tracking was lost |
| `Reconciler.RunKeeps` | backend/app/services/plan_usage.py:78-105 | over every run amount + reserved + released is 1 for every receipt, and a terminal receipt never changes |
| `TextQuota.TextTables.Totals` | backend/app/services/plan_enforcement.py:76-79 | the sums of recorded and reserved turns of a user, a mode and a day |
| `TextQuota.TextTables.AcceptTurn` | backend/app/services/turn_lifecycle.py:53-135 | admission of a turn: the answer to a repeated request key, the plan check, the wait for other turns of the chat, or the new turn with its receipt |
| `TextQuota.TextTables.TrackTurn` | backend/app/services/plan_usage.py:89-105 | the quota receipt of a text turn accepted since tracking and enforcement began: inserted, or updated unless that would reopen or change a final one |
| `TextQuota.TextTables.ClaimTurn` | backend/app/services/turn_lifecycle.py:144-154 | a pending turn is claimed once, by whoever comes first, and its receipt stays reserved |
| `TextQuota.TextTables.FinishTurn` | backend/app/services/turn_lifecycle.py:169-189 | the claim's holder ends a streaming turn, and its receipt with it |
| `TextQuota.TextTables.FailTurn` | backend/app/services/turn_lifecycle.py:192-211 | the claim's holder gives up a pending or streaming turn, and its receipt with it |
| `TextQuota.TextWithinLimit` | backend/app/services/plan_enforcement.py:82-89 | over every run of any users' concurrent turns, what a user who is not exempt has recorded and reserved for a mode and day never exceeds the plan's limit, and neither do the turns answered or still open; the two counts are equal unless a chat was deleted |
| `TextQuota.RefusedOnlyAtLimit` | backend/app/services/plan_enforcement.py:87-89 | over every run a turn is refused for the plan only when exactly the limit is taken |
| `TextQuota.OnlyFailureGivesBack` | backend/app/services/plan_usage.py:89-105 | an answered turn keeps its place in the day's limit, a failed or interrupted one gives it back, and only once |
| `TextQuota.RepeatsAreFree` | backend/app/services/turn_lifecycle.py:74-87 | after any run, while the chat is kept, repeating an accepted request changes nothing; by what its claim's holder did, it is in progress, over after a failure, and once completed replayed unless it asks for a stream; a different request under the key is a conflict |
| `TextQuota.AcceptIsExact` | backend/app/services/turn_lifecycle.py:88-135 | a new request is refused for the plan exactly when the day is used up, otherwise exactly when its chat is occupied, and is otherwise accepted pending and unclaimed |
| `TextQuota.AcceptTakesOne` | backend/app/services/plan_usage.py:89-105 | an accepted turn takes one place of its user, mode and day, exactly when it is a text turn under tracking and enforcement, and none of anybody else's |
| `TextQuota.SpokenStaysAlone` | backend/app/services/turn_lifecycle.py:101-106 | over every run an open spoken turn is the only open turn of its chat |
| `Limiters.Limiter.Allow` | backend/app/services/collaboration.py:93-101 | the queue is pruned from the front and the attempt refused when the rest is full; access_management.py does the same with the other edge rule |
| `Limiters.QueueRefinesLog` | backend/app/services/collaboration.py:87-104 | with a clock that never runs backwards, across clears, the pruned queue answers exactly as counting all allowed attempts of the window would |
| `Limiters.NeverOverLimit` | backend/app/services/access_management.py:36-50 | between clears no window, wherever it lies, holds more than the maximum |
| `Limiters.AnswerIsExact` | backend/app/services/collaboration.py:87-104 | over every run with clears, on a clock that never runs backwards, an attempt is allowed exactly when fewer than the maximum of the attempts since the last clear were allowed within the window |
| `Limiters.LimitersDifferAtTheEdge` | backend/app/services/access_management.py:45-46 | with every slot taken at one moment both limiters allow again after the window, and exactly one window later only the one of collaboration.py does |
| `Streaks.CurrentStreak` | backend/app/services/progression.py:106-112 | the current streak is the maximal block of consecutive days ending today, or yesterday when today is absent |
| `Streaks.LongestStreak` | backend/app/services/progression.py:113-119 | the longest streak is the size of the largest block of consecutive days |
| `Streaks.StreaksAreUnique` | backend/app/services/progression.py:106-119 | the dates determine both streaks |
| `Streaks.CurrentWithinLongest` | backend/app/services/progression.py:106-119 | the current streak never exceeds the longest, and is zero exactly when neither today nor yesterday is in the set |

## Left out

- LiveGuarantees.LogoutCutsOff: speaks of runs in which the matched row is kept, because the cutoff lives in that row and goes with it.
- LiveGuarantees.EveryRunBillsOnce: the quota equation is for users who are not exempt and for plans that do not change during the run; an exempt user's receipts are uncapped.
- LiveCalls.CallTable.AuthorizeCall: the answer of `resolve_scope` is a parameter, and each of its refusals counts as not authorized; the voice preference and `connected_at` are left out.
- LiveSessions.Admit: a repeated delivery of an item that was already admitted, which only returns the old receipt, is left out, and so are messages, titles and visitor capture.
- LiveContinuity.GrantedTicketWorks: a ticket presented from its origin by somebody else, even when it is refused, ends what is promised.
- PlaybackOutput.RunIsGood: stops at the first raised error, after which the socket closes the connection.
- TranscriptText.NormalizeIsIdempotent: characters are Unicode code points; a transcript that is not a string is rejected before the model begins.
- MediaGuarantees.OriginalsKeptUnlessLate: the store maps keys to bytes; an S3 bucket with versions deletes only the version it stored, and the local store refuses to overwrite.
- MediaLifecycle.Preserve: a candidate's evidence rows and draft are one text, and an approval makes one link for all of them; `prepare_edit` and the text of the memory are left out.
- MediaLifecycle.ValidateVisual: the verdict on the bytes is a parameter.
- MediaLifecycle.Create: a request number stands for the uploader and the request key; permissions, file names, MIME types and signatures are left out.
- PersonalityQueue.ReadersSeeFreshProfiles: the subject's name is part of the fixed evidence, because no invalidation hook watches it; schema and policy versions are constants and left out.
- PersonalityQueue.ProfileTable.ClaimNext: the ordered query that lists the candidates is a parameter, possibly out of date.
- Streaks.LongestStreak: takes the dates already in ascending order; milestones and contributor fields are left out.
- TurnEffects.ExactlyOnce: what the memory service stores is a parameter, and daily prompts are left out.
- Isolation below whole transactions: `_deferred_extract`, `_purge` and `_fail` of the profile worker read a row they have not locked and then update it; each is one step here. Lock timeouts, savepoints and the best-effort shadow mode of plan tracking are left out.
- TextQuota.TextWithinLimit: enforcement stays on and plans do not change during the run; row ids are never used twice; lock timeouts and messages are left out.
- Viewer, collaborator and story counts: sums and comparisons of the kind proved for text, voice and storage.
- Provider clients, sockets, web search, email and sign-in: their events are arbitrary inputs.
- Visual companions, display pictures and their storage: outside the source lifecycle.
- Prompt text, routing, interviewing and the derivation of profiles and memories: heuristics without a crisp meaning to prove.
- Migrations, schemas, configuration, telemetry and API routes.
