# Gorge, modelled and proved in Dafny

Gorge moves Phorge's background services to Go. This project models the parts of
it that have to be right in every run, not only on the usual path, and proves what
they promise: two diff engines, the mail delivery ledger, the task queue on MySQL
and on Redis, the trigger scheduler, nested transactions over savepoints, the
gateway's rate limiter, the image cache, the storage router and resumable uploads.

`dafny verify dfyconfig.toml` checks everything.

## How the models are built

Code that updates things step by step is a class or a method with loops, and each
of its methods is proved against a function of the old state. What the system
promises is then proved about those functions. A protocol is a state machine: a
world, the steps it can take, and what holds after every sequence of steps. Steps
are the system's own atomic units, a SQL statement or transaction, a Redis script, a
critical section or a durable file write, so interleavings and crashes are all the
orders and prefixes of them.

| files | what they model |
|---|---|
| `UnifiedLcs`, `UnifiedText` | the unified diff: trimming, the LCS table, and the printed hunk with a reader for it |
| `PieceMatching`, `ProseSegments`, `ProseEdit`, `ProseDiff`, `ProseBuild` | the prose diff: splitting, alignment, edit scripts, reordering, four levels |
| `ProsePieces`, `ProseLinks`, `ProseKept`, `ProseDescent` | where the prose diff cuts, and what it keeps unchanged at every depth |
| `MailLedger`, `MailRuns`, `MailDispatch` | the delivery ledger, its runs, and the retry and failover loops |
| `QueueTypes`, `QueueStore`, `QueueEffects`, `QueueRuns`, `QueueExclusion` | the MySQL queue, what each operation does to it, its runs, and who holds a task in them |
| `RedisQueue`, `RedisIndex`, `RedisEffects`, `RedisRuns` | the Redis queue, its index invariant, what each script does, and its runs |
| `Scheduler`, `SchedulerRuns` | the trigger scheduler |
| `NestedTx` | nested transactions over savepoints |
| `RateLimit` | the token bucket limiter |
| `ImageCache`, `ImageCacheRuns` | the image result cache |
| `StorageRouter` | engine fallback and the rewinding reader |
| `Uploads`, `UploadEffects`, `UploadRuns` | resumable upload sessions, what each operation accepts, and their crash states |
| `Options`, `Numbers`, `Sequences`, `Decimals` | shared definitions |

Clocks, provider answers, query results that may be stale, gate decisions, plans
from PHP and orders in which Redis or a directory lists things are parameters, and
the theorems hold for all of them. SHA-256 is taken to be injective. Rate limiter
tokens and times are reals.

Some promises turned out to need a condition, or to fail:

- The diff of two identical texts is context only, but its last line is printed as
  terminated, so a reader gets one newline more than the text (`IdenticalRoundTrip`).
- One pass of `reorderParts` can leave an empty segment (`OnePassLeavesEmpty`), and
  leaves none exactly when no run of changes is used up by the layout its two texts
  share at the end (`OnePassNoEmptyIff`); the second pass that the top level makes
  removes it (`TwoPassesNoEmpty`).
- The rate limiter's bound holds of all windows exactly when the burst refills
  within the ten idle minutes (`BoundIffRefilled`); then a call is admitted exactly when
  no window ending with it would exceed the bound (`AdmittedExactlyWhen`).
- The Redis `Yield` keeps the indexes consistent exactly when the task exists
  (`YieldKeeps`).
- The Redis score orders by priority and id exactly for ids below 10^12
  (`ScoreOrdersIff`).
- The unfenced `Complete` of a leased task lets a later `Finalize` of the same window
  answer ok without its followups (`LegacyCompleteLosesFollowups`). The answers can
  be trusted exactly in the runs without such a `Complete` (`TrustworthyExactlyWhen`).
- An unfenced `Yield` of a held task, or an unfenced temporary `Fail` of one whose
  wait ends more than a second before the grant, lets two workers hold the task
  (`LegacyYieldDoublesLease`, `LegacyFailDoublesLease`). Exclusion is certain exactly
  in the runs without either (`ExclusiveExactlyWhen`). A longer wait and unfenced
  archiving do it no harm.

## Model

| member | source | states |
|---|---|---|
| `UnifiedLcs.BoundedEdits` | go/internal/diff/unified/unified.go:111-133 | a script is refused exactly when both trimmed middles are non-empty and (n+1)(m+1) exceeds the cell budget; otherwise it consumes exactly both inputs, keeps only equal lines, the kept lines are a longest common subsequence of the untrimmed inputs, and in every run of changes it deletes before it inserts |
| `UnifiedLcs.GuardIsCellBudget` | go/internal/diff/unified/unified.go:120-123 | the division in the guard accepts exactly the middles with (n+1)(m+1) <= MAX_CELLS |
| `UnifiedLcs.TrimEdges` | go/internal/diff/unified/unified.go:112-120 | the two loops find the common prefix, and the common suffix of what it leaves |
| `UnifiedLcs.TrimmedScript` | go/internal/diff/unified/unified.go:111-133 | putting the trimmed context back around an optimal script of the middles gives an optimal, deletes-first script of the whole inputs |
| `UnifiedLcs.Lcs` | go/internal/diff/unified/unified.go:215-276 | the flat-table method computes the backtracked script of the two-argument recurrence |
| `UnifiedLcs.FillTable` | go/internal/diff/unified/unified.go:234-249 | every cell of the flat array holds the LCS length of the two prefixes it stands for |
| `UnifiedLcs.WalkBack` | go/internal/diff/unified/unified.go:254-275 | the loop from the last cell, reversed in place, is the recursive backtrack |
| `UnifiedLcs.BacktrackAligns` | go/internal/diff/unified/unified.go:254-268 | the backtracked script consumes both inputs and keeps LcsLength lines |
| `UnifiedLcs.CommonSubsequenceBound` | go/internal/diff/unified/unified.go:239-249 | no common subsequence is longer than LcsLength |
| `UnifiedLcs.LcsCommonPrefix` | go/internal/diff/unified/unified.go:112-120 | trimming equal lines from the front shortens the longest common subsequence by exactly their number |
| `UnifiedLcs.LcsCommonSuffix` | go/internal/diff/unified/unified.go:112-120 | the same for the back |
| `UnifiedLcs.LcsMonotone` | go/internal/diff/unified/unified.go:239-249 | the table grows by at most one per row and column |
| `UnifiedLcs.BacktrackNoInsertThenDelete` | go/internal/diff/unified/unified.go:251-268 | the tie rule never leaves an insertion directly before a deletion |
| `UnifiedLcs.NoInsertThenDeleteMeansDeletesFirst` | go/internal/diff/unified/unified.go:251-268 | such scripts have all deletions of a run of changes before all its insertions |
| `UnifiedText.Generate` | go/internal/diff/unified/unified.go:66-105 | of the request's two texts, or, when it asks for that, of what is left of them without spaces and tabs: refused exactly if they differ and the two trimmed middles are over the cell budget; equal is reported exactly for identical ones; a reader of the printed diff recovers the old text as the old and the new as the new, byte for byte with their final-newline flags, and the header counts are their line counts; the diff of identical texts reads as context only, the text and one newline more |
| `UnifiedText.SplitLines` | go/internal/diff/unified/unified.go:146-157 | the loop splits at newlines and flags a missing final one |
| `UnifiedText.LinesLossless` | go/internal/diff/unified/unified.go:146-157 | joining the lines gives the text back |
| `UnifiedText.LinesEqual` | go/internal/diff/unified/unified.go:159-169 | true exactly for equal line sequences |
| `UnifiedText.NormalizeFilters` | go/internal/diff/unified/unified.go:138-140 | the normalised text is the characters of the text that are neither space nor tab, in order |
| `UnifiedText.RangeRoundTrip` | go/internal/diff/unified/unified.go:283-294 | a reader of the printed range gets start and count back |
| `UnifiedText.CountSides` | go/internal/diff/unified/unified.go:302-314 | the header counts of a script are its old and new line counts |
| `UnifiedText.FormatBody` | go/internal/diff/unified/unified.go:316-351 | the body loop prints the records of the script, with the no-newline marker after an unterminated line |
| `UnifiedText.FormatUnified` | go/internal/diff/unified/unified.go:296-351 | header, ranges and body as printed |
| `UnifiedText.RecordsRoundTrip` | go/internal/diff/unified/unified.go:316-351 | reading the printed records gives the same records |
| `UnifiedText.RecordsCarryBothSides` | go/internal/diff/unified/unified.go:316-351 | the records of an aligned script carry exactly the two line sequences |
| `UnifiedText.HunkRoundTrip` | go/internal/diff/unified/unified.go:283-351 | a reader of the whole hunk gets ranges and records back |
| `UnifiedText.FormatIdentical` | go/internal/diff/unified/unified.go:188-201 | the loop prints every line of the text as context |
| `UnifiedText.IdenticalRoundTrip` | go/internal/diff/unified/unified.go:188-201 | a reader of that hunk gets, on both sides, the text and one newline more |
| `ProseDescent.Generate` | go/internal/diff/prose/prose.go:48-51 | for all pairs of texts, equal and removed segments concatenate to the old text and equal and added ones to the new; no two adjacent segments share a type, no added one is directly followed by a removed one, none is empty; and the descent is thorough: at every changed block, however deep, unless a list of pieces exceeds 128, every piece that a cheapest edit string of the block's pieces keeps (from words on, but for single ones between two changes) stands as unchanged text in the result, and at the top every paragraph the forward alignment matches does |
| `ProseDescent.DiffIsThorough` | go/internal/diff/prose/prose.go:48-137 | the same descent of the specification function, for all pairs of texts |
| `ProseDescent.DiffReaches` | go/internal/diff/prose/prose.go:53-137 | whatever characters the alignment of a block links, at whatever depth, the whole diff links at the place of that block in the two texts |
| `ProseDescent.SentenceKeepsWords` | go/internal/diff/prose/prose.go:53-137 | two different sentences of at most 128 words each, which share no layout at their ends: every word that a cheapest edit string of their words keeps, but for single ones between two changes, is unchanged in the diff |
| `ProseKept.EditLevelKeeps` | go/internal/diff/prose/prose.go:285-379 | a level that does not give up links, character by character, what some cheapest edit string keeps |
| `ProseKept.AlignKeeps` | go/internal/diff/prose/prose.go:230-279 | the paragraph alignment links every piece that the forward matching pairs |
| `ProseLinks.ReorderKeeps` | go/internal/diff/prose/prose.go:415-449 | characters unchanged before a reordering are unchanged, at the same two places, after it |
| `ProseBuild.DiffCorrect` | go/internal/diff/prose/prose.go:48-137 | the same of the specification function, through all four levels |
| `ProseBuild.BuildCorrect` | go/internal/diff/prose/prose.go:53-137 | every level rebuilds both texts in normal form |
| `ProseBuild.UnchangedText` | go/internal/diff/prose/prose.go:48-137 | a text compared with itself is one equal segment, or none when it is empty |
| `ProseBuild.BuildProse` | go/internal/diff/prose/prose.go:53-137 | the recursive method with its grouping and refinement loops computes the specification, which ProseDescent.DiffReaches describes on the segments |
| `ProseBuild.Group` | go/internal/diff/prose/prose.go:85-110 | refining the blocks the loop groups gives what the specification expands the list to |
| `ProseBuild.EditDistanceDiff` | go/internal/diff/prose/prose.go:285-379 | over 128 pieces on a side it gives up; otherwise it renders the smoothed edit script |
| `ProseBuild.EditLevelCorrect` | go/internal/diff/prose/prose.go:285-379 | the rendered script rebuilds both piece lists |
| `ProseEdit.EditString` | go/internal/diff/prose/prose.go:300-345 | the matrix fill and walk compute a script of minimal cost: no script that turns one side into the other has fewer operations other than keeps |
| `ProseEdit.FillMatrix` | go/internal/diff/prose/prose.go:300-317 | every cell holds the edit distance of the two prefixes |
| `ProseEdit.BacktrackCheapest` | go/internal/diff/prose/prose.go:322-345 | the backtracked script applies to both sides and no applicable script is cheaper |
| `ProseEdit.DistanceIsLowerBound` | go/internal/diff/prose/prose.go:300-317 | every applicable script costs at least the distance |
| `ProseEdit.Smooth` | go/internal/diff/prose/prose.go:383-398 | the loop turns every keep between two changes into a substitution |
| `ProseEdit.SmoothedApplies` | go/internal/diff/prose/prose.go:383-398 | smoothing keeps the script applicable to both sides and leaves no isolated keep |
| `ProseDiff.Split` | go/internal/diff/prose/prose.go:148-160 | splitting at each level, as a method |
| `ProseDiff.SplitLossless` | go/internal/diff/prose/prose.go:148-223 | the pieces of every level join to the text and none is empty |
| `ProsePieces.WordsAreCut` | go/internal/diff/prose/prose.go:143-160 | words are cut exactly where a run of whitespace ends |
| `ProsePieces.CoarseAreCut` | go/internal/diff/prose/prose.go:143-198 | paragraphs and sentences are cut exactly where a run of their delimiters ends, and each is then parted into the whitespace before it, its body and the whitespace after it |
| `ProsePieces.DelimitersAre` | go/internal/diff/prose/prose.go:143-147 | which characters delimit at each level |
| `ProsePieces.TrimApartTrims` | go/internal/diff/prose/prose.go:202-223 | the outer parts are exactly the maximal whitespace at the ends |
| `ProsePieces.CharactersAreSingle` | go/internal/diff/prose/prose.go:164-172 | the finest pieces are the characters one by one |
| `ProseDiff.StitchPieces` | go/internal/diff/prose/prose.go:174-198 | the stitching loop pairs parts and delimiters |
| `ProseDiff.TrimApartLossless` | go/internal/diff/prose/prose.go:202-223 | leading space, body and trailing space join to the input |
| `ProseDiff.HashDiff` | go/internal/diff/prose/prose.go:230-279 | the index-driven method computes the greedy alignment |
| `ProseDiff.AlignOld` | go/internal/diff/prose/prose.go:230-279 | the alignment carries exactly the old pieces |
| `ProseDiff.AlignNew` | go/internal/diff/prose/prose.go:230-279 | and exactly the new pieces |
| `PieceMatching.MatchPieces` | go/internal/diff/prose/prose.go:231-251 | each old piece is matched to the first later equal new piece after the previous match, through the position lists |
| `ProseSegments.ReorderParts` | go/internal/diff/prose/prose.go:415-449 | collecting runs and merging neighbours, as loops |
| `ProseSegments.ReorderCorrect` | go/internal/diff/prose/prose.go:415-449 | reordering keeps both texts and gives a normal list |
| `ProseSegments.CombineRuns` | go/internal/diff/prose/prose.go:468-509 | the loops find the shared layout edges of a change and lift them out |
| `ProseSegments.CombineRebuilds` | go/internal/diff/prose/prose.go:468-509 | a combined change still carries both texts |
| `ProseSegments.CombineOrdered` | go/internal/diff/prose/prose.go:468-509 | and has no added segment before a removed one |
| `ProseSegments.OnePassLeavesEmpty` | go/internal/diff/prose/prose.go:415-509 | one pass can leave an empty removed segment: an input that shows it |
| `ProseSegments.OnePassNoEmptyIff` | go/internal/diff/prose/prose.go:415-509 | if no equal segment is empty, one pass leaves no empty segment exactly when, in every run of changes, the two texts share no trailing layout or each has something between the shared edges |
| `ProseSegments.TwoPassesNoEmpty` | go/internal/diff/prose/prose.go:415-509 | if no equal segment is empty, as every level ensures, two passes never leave an empty segment |
| `MailLedger.Service.DeliverBegin` | go/internal/mailer/delivery.go:64-140 | the first transaction of Deliver, row by row: insert if absent, refuse another payload, answer a settled delivery, settle a stale submission, expire, or claim the next attempt |
| `MailLedger.Service.DeliverReport` | go/internal/mailer/delivery.go:157-193 | the reporting transaction settles exactly if the row is still the open submission of this attempt; then the row and its attempt hold what the outcome says: accepted with its receipt, failed, unknown, or, before the twelfth attempt, waiting 30 seconds doubled per attempt up to 3840, plus jitter; otherwise nothing changes |
| `MailLedger.Service.SaveDelivery` | go/internal/mailer/delivery.go:194-211 | the fenced update of a delivery row |
| `MailLedger.Service.CancelDelivery` | go/internal/mailer/delivery.go:216-245 | cancels a prepared or waiting delivery, repeats a cancelled one, refuses every other |
| `MailLedger.Service.SettleStale` | go/internal/mailer/delivery.go:247-253 | an abandoned submission and its open attempt become unknown |
| `MailLedger.Service.RecoverBatch` | go/internal/mailer/delivery.go:257-314 | one batch of Recover over the selected rows |
| `MailLedger.ReportRecords` | go/internal/mailer/delivery.go:142-193 | for every outcome, what row and attempt hold after a report whose submission is open, and that any other report changes nothing |
| `MailLedger.BeginClaims` | go/internal/mailer/delivery.go:64-140 | a delivery is claimed exactly when it is idle, before its deadline, due, allowed and a mailer ready, under the next attempt and revision, and refused exactly for another payload |
| `MailLedger.BeginAnswers` | go/internal/mailer/delivery.go:64-140 | what every call that does not claim answers and leaves in the row: the stored result, the open submission with 5 seconds, unknown after 120, expired at the deadline, the wait as it is, or 60 seconds without permission |
| `MailLedger.CancelDecides` | go/internal/mailer/delivery.go:216-245 | exactly the idle deliveries are cancelled; a cancelled one is answered again, a missing one reported, and every other is too late and untouched |
| `MailLedger.BeginOk` | go/internal/mailer/delivery.go:64-140 | the ledger invariant is kept and only this delivery touched |
| `MailLedger.ReportOk` | go/internal/mailer/delivery.go:157-193 | the same of a report |
| `MailLedger.CancelOk` | go/internal/mailer/delivery.go:216-245 | the same of a cancellation |
| `MailLedger.RecoverOk` | go/internal/mailer/delivery.go:257-314 | the same of a recovery batch |
| `MailLedger.TerminalAbsorbing` | go/internal/mailer/delivery.go:92-253 | no transaction changes a settled delivery, not even the report of a late submitter, and a replay answers the stored result |
| `MailRuns.AtMostOnce` | go/internal/mailer/delivery.go:86-193 | over every interleaving of Deliver, Cancel, Recover, replays and crashes, a delivery is accepted by providers at most once, a provider is called again only after proven non-acceptances, and a recorded accepted, failed, expired or cancelled state is true; given that safe-retry and permanent errors mean not accepted |
| `MailRuns.LedgerInvariant` | go/internal/mailer/delivery.go:92-314 | in every reachable state the revision is 2*attempt-1, 2*attempt or 2*attempt+1 by state, the attempt rows are 1..attempt, exactly one is open when submitting and none otherwise, and there are at most twelve |
| `MailRuns.TerminalForever` | go/internal/mailer/delivery.go:92-314 | a settled delivery never changes again, in any run |
| `MailRuns.ReportedIsRecorded` | go/internal/mailer/delivery.go:142-211 | after any run, a submitter that reports while its submission is open has its outcome recorded, and in every continuation a final one stands |
| `MailRuns.FreshIsAccepted` | go/internal/mailer/delivery.go:64-193 | after any run, a new delivery that is claimed in time and accepted by the provider is recorded as accepted with its receipt |
| `MailRuns.CancelledIsNeverAccepted` | go/internal/mailer/delivery.go:216-245 | in every run, a delivery cancelled while it waits stays cancelled and no provider has accepted it or ever does |
| `MailRuns.RecoveryEndsOverdue` | go/internal/mailer/delivery.go:257-314 | a recovery transaction ends at most 32 deliveries, each a submission two minutes old, as unknown, or idle past its deadline, as expired, and leaves every other one alone |
| `MailRuns.OverdueIsRecoverable` | go/internal/mailer/delivery.go:257-314 | a recovery transaction may take exactly the sets of at most 32 deliveries of one of the three states that are all overdue |
| `MailDispatch.SendThrough` | go/internal/mailer/dispatch.go:182-215 | every physical call but the last was a proven non-acceptance, each directly follows a passed gate, a result that is no safe retry is that of the last call or of the gate, and without disturbance a safe-retry result means all tries were used |
| `MailDispatch.SendAuthorized` | go/internal/mailer/dispatch.go:132-173 | the same across the permitted adapters: without disturbance the calls go through a prefix of the round, each permitted adapter in order as often as it is tried, and through all of it when the result is a safe retry |
| `MailDispatch.TryAdapter` | go/internal/mailer/dispatch.go:132-173 | one adapter of the failover: it either ends the dispatch with what its last call returned, or all its tries were proven non-acceptances |
| `MailDispatch.DispatchRefines` | go/internal/mailer/dispatch.go:132-215 | every dispatch is a run of submitter steps that logs exactly its physical calls, in order and with what the provider did, so the run theorems cover it |
| `QueueStore.Store.NextCounterValue` | go/internal/taskqueue/mysql_store.go:586-601 | ids come from the counter row |
| `QueueStore.Store.EnqueueInTx` | go/internal/taskqueue/mysql_store.go:65-135 | a new row under the next id, as asked |
| `QueueStore.Store.EnqueueEventInTx` | go/internal/taskqueue/inbox_mysql.go:12-57 | a new event creates its task and receipt; a replay answers the receipt; another payload conflicts |
| `QueueStore.Store.LockExecution` | go/internal/taskqueue/execution_mysql.go:12-24 | true exactly for the live holder of the lease |
| `QueueStore.Store.FinalizeTask` | go/internal/taskqueue/execution_mysql.go:26-75 | the holder creates all followups and archives the task; a replay of the archived window is answered; everyone else conflicts |
| `QueueStore.Store.RenewTask` | go/internal/taskqueue/execution_mysql.go:77-102 | only the holder extends, and never shortens, the lease |
| `QueueStore.Store.ResolveTask` | go/internal/taskqueue/execution_mysql.go:104-149 | only the holder archives, retries or yields the task |
| `QueueStore.Store.TakeRows` | go/internal/taskqueue/mysql_store.go:157-216 | the conditional UPDATE takes exactly the eligible rows among the given ids and returns how many |
| `QueueStore.Store.LeaseRows` | go/internal/taskqueue/mysql_store.go:155-215 | the two conditional UPDATEs of a lease; the second is offered, of the ids seen, as many as the first left of the limit |
| `QueueStore.Store.FetchLeased` | go/internal/taskqueue/mysql_store.go:224-261 | only rows this owner now holds, none twice, and all of them below the limit |
| `QueueStore.Store.LeaseTasks` | go/internal/taskqueue/mysql_store.go:137-261 | the three statements of a lease over whatever its SELECTs saw: exactly the eligible rows it offers end up held by the caller and no other row changes; of the expired ids seen it offers as many as the first statement left of the limit; what is handed out is held by the caller, none twice and within the limit, and below the limit every row taken is handed out |
| `QueueStore.Store.ArchiveUnfenced` | go/internal/taskqueue/mysql_store.go:429-513 | the unfenced archive move |
| `QueueStore.FinalizeConserves` | go/internal/taskqueue/execution_mysql.go:26-75 | every id is in exactly one of the two tables afterwards |
| `QueueStore.ChildAt` | go/internal/taskqueue/execution_mysql.go:53-61 | the i-th followup is the i-th new row, with the inherited priority |
| `QueueEffects.EnqueueEffect` | go/internal/taskqueue/mysql_store.go:65-135 | one new row under the next id, as asked, and nothing else changes |
| `QueueEffects.EventEffect` | go/internal/taskqueue/inbox_mysql.go:12-57 | the first request of an event creates its task; a repetition answers that task, any other request conflicts, both without effect |
| `QueueEffects.FinalizeEffect` | go/internal/taskqueue/execution_mysql.go:26-75 | for the live holder: the followups appear, in order and as asked, the task moves to the archive with its window, and nothing else changes; for everyone else nothing changes, and ok is answered exactly for the window of an archived success |
| `QueueEffects.RenewEffect` | go/internal/taskqueue/execution_mysql.go:77-102 | for the live holder the expiry becomes the later of its old one and now plus the duration; otherwise nothing |
| `QueueEffects.ResolveEffect` | go/internal/taskqueue/execution_mysql.go:104-149 | ok exactly for the live holder; then the task is archived as failed, waits with one failure more, or yields for at least five seconds, and no other row changes |
| `QueueEffects.UnfencedEffect` | go/internal/taskqueue/mysql_store.go:263-319 | the same effects of the unfenced routes, for whatever row there is |
| `QueueEffects.AwakenEffect` | go/internal/taskqueue/mysql_store.go:324-349 | exactly the named tasks that yielded, never failed and are within the hour come forward |
| `QueueEffects.EnqueuedIsLeased` | go/internal/taskqueue/mysql_store.go:65-261 | in every run, a task that was enqueued and then left alone is leased by the first call that selects it once its delay is over, with its spec, and handed to that caller |
| `QueueRuns.IdsConserved` | go/internal/taskqueue/mysql_store.go:65-601 | in every run each allocated id is in exactly one of active and archive, and an archived row never changes |
| `QueueExclusion.MutualExclusion` | go/internal/taskqueue/execution_mysql.go:12-149 | over every route, with Lease split into its statements and stale SELECTs, at most one owner holds an unexpired grant of a task, in every run that opens no held task: none is yielded without its fence, and none failed without it with a wait that ends more than a second before a grant |
| `QueueExclusion.ExclusiveExactlyWhen` | go/internal/taskqueue/execution_mysql.go:12-149 | all through a run, exclusion is certain for every continuation without an unfenced release exactly when no step of the run opens a held task; the same of the holder being the only one who passes the fence |
| `QueueExclusion.StepExact` | go/internal/taskqueue/mysql_store.go:267-319 | after any run that opened no held task, a step leaves every continuation without an unfenced release exclusive, and the fence to the holder, exactly when it does not open a held task itself |
| `QueueExclusion.OnlyTheHolderCommits` | go/internal/taskqueue/execution_mysql.go:12-149 | in the runs of MutualExclusion, while an owner holds an unexpired grant, Renew, Resolve and Finalize of anyone else are refused and change nothing |
| `QueueExclusion.LegacyFailDoublesLease` | go/internal/taskqueue/mysql_store.go:267-296 | an unfenced temporary Fail of a held task whose wait ends more than a second before the grant lets a second worker lease the task, and pass its fence, while the first still holds it |
| `QueueExclusion.LegacyYieldDoublesLease` | go/internal/taskqueue/mysql_store.go:298-319 | an unfenced Yield of a held task lets a second worker lease it at the same instant: after an Awaken, or, if the task has failed before, after a Resolve under the name of the yield with a wait in the past |
| `QueueExclusion.LeasesHoldExactlyWhen` | go/internal/taskqueue/execution_mysql.go:12-149 | in every state of a run each unexpired grant still has its row, active or archived under its owner, exactly when no step of the run yields or temporarily fails a held task without its fence |
| `QueueRuns.FollowupsExactlyOnce` | go/internal/taskqueue/execution_mysql.go:26-75 | in every run in which no leased task was completed without its fence, a Finalize that answers ok has one committed finalization behind it, whose followups exist, exactly once, as asked; no row is unaccounted for |
| `QueueRuns.TrustworthyExactlyWhen` | go/internal/taskqueue/execution_mysql.go:26-75 | after any run, every Finalize that would answer ok has a committed finalization behind it exactly when no step of the run completed a task with an owner and an expiry through the unfenced route |
| `QueueRuns.CommitsForever` | go/internal/taskqueue/execution_mysql.go:26-75 | a committed finalization is never replaced, however often it is replayed |
| `QueueRuns.FollowupsUnique` | go/internal/taskqueue/execution_mysql.go:26-75 | no followup is created twice, and the creations account for every row of both tables |
| `QueueRuns.OneTaskPerEvent` | go/internal/taskqueue/inbox_mysql.go:12-57 | an event yields at most one task, in any run, and the creations account for every row of both tables |
| `QueueRuns.EventReplays` | go/internal/taskqueue/inbox_mysql.go:12-57 | a replay creates nothing and answers the task of its event; another payload is refused |
| `QueueRuns.LegacyCompleteLosesFollowups` | go/internal/taskqueue/mysql_store.go:263-265 | after an unfenced Complete of a held task, a Finalize of the same window answers ok and creates nothing |
| `RedisRuns.IndexInvariant` | go/internal/taskqueue/redis_store.go:87-437 | in every run whose clocks lag by at most an hour and whose Yields name existing tasks, idx:unleased and idx:leased partition the task hashes, idx:active is their ids, leased scores are the expiries, counter:failed counts the active tasks that failed and counter:archived the archived ones |
| `RedisRuns.UnleasedIsFree` | go/internal/taskqueue/redis_store.go:410-437 | no clock that lags by at most an hour finds a live lease on an unleased task |
| `RedisIndex.LeasesPartition` | go/internal/taskqueue/redis_store.go:87-202 | the two lease indexes are disjoint and cover the task hashes |
| `RedisIndex.YieldKeeps` | go/internal/taskqueue/redis_store.go:391-408 | Yield keeps the indexes consistent exactly when the task exists |
| `RedisIndex.InsertKeeps` | go/internal/taskqueue/redis_store.go:121-132 | writing a reserved task keeps the invariant |
| `RedisIndex.ArchiveKeeps` | go/internal/taskqueue/redis_store.go:243-288 | the archive script keeps it, counters included |
| `RedisIndex.RetryKeeps` | go/internal/taskqueue/redis_store.go:335-364 | the fail script keeps it |
| `RedisIndex.WakeKeeps` | go/internal/taskqueue/redis_store.go:410-437 | the awaken script keeps it for any list of ids |
| `RedisIndex.FinalizeKeeps` | go/internal/taskqueue/execution_redis.go:13-59 | the finalize script keeps it, with all children |
| `RedisIndex.HeldIsLeased` | go/internal/taskqueue/execution_redis.go:75-84 | whoever passes the fence, with a clock that lags by at most an hour, holds a task of idx:leased |
| `RedisIndex.RenewKeeps` | go/internal/taskqueue/execution_redis.go:75-84 | the renew script keeps it, although it does not touch idx:unleased; for a clock that lags by at most an hour |
| `RedisIndex.ResolveKeeps` | go/internal/taskqueue/execution_redis.go:109-138 | the resolve script keeps it for all three outcomes |
| `RedisIndex.EventKeeps` | go/internal/taskqueue/inbox_redis.go:13-41 | the event script keeps it |
| `RedisEffects.EventEffect` | go/internal/taskqueue/inbox_redis.go:13-41 | the first request of an event files its task in hash and indexes; a repetition answers it, any other request is refused, both without effect |
| `RedisEffects.FinalizeEffect` | go/internal/taskqueue/execution_redis.go:13-59 | for the live holder: every child is filed under the next ids, as asked or at the task's priority, the task moves to the archive, and nothing else appears or changes; for everyone else nothing changes, and ok is answered exactly for the window of an archived success |
| `RedisEffects.FinalizeReplays` | go/internal/taskqueue/execution_redis.go:13-59 | in every run, once the holder has finalized, a repetition after whatever else ran answers ok and creates nothing |
| `RedisEffects.ArchiveEffect` | go/internal/taskqueue/redis_store.go:243-288 | the task leaves hash and indexes for the archive, the counters follow, and no other task is touched |
| `RedisEffects.RenewEffect` | go/internal/taskqueue/execution_redis.go:75-84 | for the live holder the expiry becomes the later of its old one and now plus the duration; otherwise nothing |
| `RedisEffects.RetryEffect` | go/internal/taskqueue/redis_store.go:335-364 | the task waits without an owner, with one failure more, counted at its first |
| `RedisEffects.YieldEffect` | go/internal/taskqueue/redis_store.go:391-408 | the task waits under the name of the yield for at least five seconds |
| `RedisEffects.ResolveEffect` | go/internal/taskqueue/execution_redis.go:109-138 | ok exactly for the live holder; then archived as failed, retried or yielded |
| `RedisEffects.WakeEffect` | go/internal/taskqueue/redis_store.go:410-437 | exactly a task that yielded, never failed and is within the hour is unleased again, in its place by priority |
| `RedisEffects.ExpiredAreServed` | go/internal/taskqueue/redis_store.go:176-200 | a matching expired lease stays behind only when the limit was reached |
| `RedisIndex.LeaseKeeps` | go/internal/taskqueue/redis_store.go:136-202 | both phases of the lease script keep it |
| `RedisRuns.LeaseEffect` | go/internal/taskqueue/redis_store.go:136-202 | with a positive lease duration exactly the returned tasks change, to the caller's lease, and each matched and was unleased or expired |
| `RedisRuns.LeaseDistinct` | go/internal/taskqueue/redis_store.go:136-202 | with a positive lease duration at most limit tasks, none twice |
| `RedisRuns.MostUrgentFirst` | go/internal/taskqueue/redis_store.go:161-174 | a matching unleased task that stays behind does not come before any handed out, by priority and then id, and the limit was reached; for ids below 10^12 |
| `RedisRuns.UnleasedFirst` | go/internal/taskqueue/redis_store.go:176-200 | expired leases are taken over only when no matching unleased task is left |
| `RedisRuns.LeasePossible` | go/internal/taskqueue/redis_store.go:136-202 | whatever the state, there are orderings a lease script can walk |
| `RedisQueue.ScoreOrdersIff` | go/internal/taskqueue/redis_store.go:80-85 | the score orders all ids below n by priority, then id, exactly when n is at most 10^12 |
| `RedisQueue.RedisStore.WriteTask` | go/internal/taskqueue/redis_store.go:121-132 | the enqueue pipeline, command by command |
| `RedisQueue.RedisStore.ClaimUnleased` | go/internal/taskqueue/redis_store.go:161-174 | phase 1 claims the first matching ids of the ranking |
| `RedisQueue.RedisStore.TakeExpired` | go/internal/taskqueue/redis_store.go:176-200 | phase 2 takes over the first matching expired ones |
| `RedisQueue.RedisStore.Lease` | go/internal/taskqueue/redis_store.go:136-202 | the whole lease script |
| `RedisQueue.RedisStore.ArchiveTask` | go/internal/taskqueue/redis_store.go:243-288 | the archive script, with its error for a missing task |
| `RedisQueue.RedisStore.FailTask` | go/internal/taskqueue/redis_store.go:335-364 | the fail script |
| `RedisQueue.RedisStore.Yield` | go/internal/taskqueue/redis_store.go:391-408 | the yield pipeline, total as HSET is |
| `RedisQueue.RedisStore.Awaken` | go/internal/taskqueue/redis_store.go:410-437 | the awaken loop and its count |
| `RedisQueue.RedisStore.Finalize` | go/internal/taskqueue/execution_redis.go:13-59 | the finalize script with its replay answer |
| `RedisQueue.RedisStore.Renew` | go/internal/taskqueue/execution_redis.go:75-84 | the renew script |
| `RedisQueue.RedisStore.Resolve` | go/internal/taskqueue/execution_redis.go:109-138 | the resolve script |
| `RedisQueue.RedisStore.EnqueueEvent` | go/internal/taskqueue/inbox_redis.go:13-41 | the event script with its receipt |
| `SchedulerRuns.FiresInOrder` | go/internal/taskqueue/scheduler_mysql.go:39-132 | each trigger, version and ownership epoch sees at most one reschedule, and only first; its fires are for strictly increasing due epochs; over any replicas, edits, deletions, switches and PHP changes outside Gorge's ownership |
| `SchedulerRuns.OneTaskPerFire` | go/internal/taskqueue/scheduler_mysql.go:100-132 | in every run, the commit of a fire added exactly one row to the queue, under the next id and as its plan asked, the commit of a reschedule left the queue equal, and no two fires share a row |
| `SchedulerRuns.QueueAccounted` | go/internal/taskqueue/scheduler_mysql.go:100-132 | after any run the queue has allocated one id per fire, and beyond that only those allocated outside the scheduler |
| `SchedulerRuns.SnapshotOnce` | go/internal/taskqueue/scheduler_mysql.go:62-132 | a snapshot is applied at most once, in any run |
| `SchedulerRuns.NeverEarly` | go/internal/taskqueue/scheduler.go:77-79 | no event fires before its epoch |
| `SchedulerRuns.AtomicCommits` | go/internal/taskqueue/scheduler_mysql.go:62-132 | in every run, a plan commits only while every row its snapshot saw is unchanged and Gorge owns the schedule, and then moves queue, event and version together and touches no other trigger |
| `SchedulerRuns.TickIsRun` | go/internal/taskqueue/scheduler.go:115-146 | a tick is a run of apply and fail steps |
| `Scheduler.Store.LockSchedule` | go/internal/taskqueue/scheduler_mysql.go:62-99 | accepts exactly the snapshot that equals the locked rows |
| `Scheduler.Store.ApplySchedule` | go/internal/taskqueue/scheduler_mysql.go:100-132 | the transaction, row by row |
| `Scheduler.Store.ScheduleFailed` | go/internal/taskqueue/scheduler_mysql.go:133-151 | a retry delay, for a current snapshot only |
| `Scheduler.Store.Tick` | go/internal/taskqueue/scheduler.go:115-146 | the loop over the candidates; conflicts are dropped, other failures back off |
| `Scheduler.ApplyDecides` | go/internal/taskqueue/scheduler_mysql.go:39-132 | a plan is applied exactly if it answers the snapshot and every row the snapshot saw is unchanged; otherwise nothing changes |
| `Scheduler.CandidateIsApplied` | go/internal/taskqueue/scheduler_mysql.go:39-132 | a candidate just read is applied whatever plan answers it, and is a candidate again exactly from its next epoch on |
| `Scheduler.FailureDelays` | go/internal/taskqueue/scheduler_mysql.go:133-151 | a failure delays a current snapshot's trigger by exactly half a minute and changes nothing else |
| `NestedTx.SavepointsAreAStack` | go/internal/dbproxy/tx.go:34-90 | for every sequence of Begin, write, Commit and Rollback the data, the depth and the success of the next call are those of a stack of database images |
| `NestedTx.RollbackUndoes` | go/internal/dbproxy/tx.go:74-90 | a rollback returns to the data its Begin saw, whatever closed nesting ran in between |
| `NestedTx.StepRefines` | go/internal/dbproxy/tx.go:34-90 | each call keeps the relation to the stack |
| `NestedTx.ReuseKeepsLive` | go/internal/dbproxy/tx.go:34-52 | reusing a stale savepoint name leaves the live savepoints alone |
| `NestedTx.ThroughKeepsLive` | go/internal/dbproxy/tx.go:74-90 | rolling back to a savepoint finds it and drops only stale ones |
| `NestedTx.NamesDiffer` | go/internal/dbproxy/tx.go:116-118 | savepoint names of different depths differ |
| `NestedTx.TxManager.BeginTx` | go/internal/dbproxy/tx.go:34-52 | a transaction at depth 0, a savepoint above; a statement the server rejects changes nothing |
| `NestedTx.TxManager.CommitTx` | go/internal/dbproxy/tx.go:56-70 | commits at depth 1, only unwinds above, fails at 0 |
| `NestedTx.TxManager.RollbackTx` | go/internal/dbproxy/tx.go:74-90 | rolls back at depth 1, to the savepoint above, fails at 0 |
| `RateLimit.WindowBound` | go/internal/conduit/ratelimit.go:70-145 | after any history, the admissions of one client in a window of T seconds are at most burst + rps*T, with rejected calls and idle eviction, and the bucket map never exceeds its cap; for 1 <= burst <= 600*rps |
| `RateLimit.AdmittedExactlyWhen` | go/internal/conduit/ratelimit.go:70-145 | after any history, a rate-limited call of a client that has a bucket, or finds room for one, is admitted exactly when no window ending now would exceed the burst and its refill; for 1 <= burst <= 600*rps |
| `RateLimit.AdmitOtherwise` | go/internal/conduit/ratelimit.go:70-109 | exempt calls, and all calls without a rate, pass and leave no trace; a new client is turned away while the map is full |
| `RateLimit.BoundIffRefilled` | go/internal/conduit/ratelimit.go:127-145 | that bound holds of every window exactly when burst <= 600*rps; otherwise two bursts around an eviction break it |
| `RateLimit.EvictionIsFree` | go/internal/conduit/ratelimit.go:127-145 | forgetting an idle bucket gives nothing away |
| `RateLimit.RateLimiter.Allow` | go/internal/conduit/ratelimit.go:70-109 | refill, cap and charge, and the rejection of new clients when the map is full |
| `RateLimit.RateLimiter.Cleanup` | go/internal/conduit/ratelimit.go:127-145 | the eviction loop removes exactly the buckets idle for over ten minutes |
| `ImageCacheRuns.WithinBudget` | go/internal/imagetransform/cache.go:58-118 | under all interleavings the byte counter, moved only by the size of each entry removed or added, is the sum of the entry sizes and within the budget, and there are at most 32 entries |
| `ImageCacheRuns.CanLand` | go/internal/imagetransform/cache.go:95-117 | a computation that succeeds within the size limit can always land |
| `ImageCacheRuns.SingleFlight` | go/internal/imagetransform/cache.go:58-118 | two running computations are never for the same key, nor for a cached one |
| `ImageCacheRuns.OnlyComputed` | go/internal/imagetransform/cache.go:58-118 | every stored or returned result was computed for its key |
| `ImageCacheRuns.WaitersHaveLeaders` | go/internal/imagetransform/cache.go:78-90 | a waiter's computation is still running or has landed |
| `ImageCacheRuns.NewCacheStarts` | go/internal/imagetransform/cache.go:58-63 | a new cache is a start from which the run results hold |
| `ImageCache.Cache.Purge` | go/internal/imagetransform/cache.go:64-70 | the expiry loop removes exactly the expired entries and takes the size of each off the counter |
| `ImageCache.Cache.Oldest` | go/internal/imagetransform/cache.go:99-105 | the scan finds a least recently used entry |
| `ImageCache.Cache.EvictFor` | go/internal/imagetransform/cache.go:98-111 | eviction makes room or empties the cache, oldest first, evicts no more than it must, and takes the size of each evicted entry off the counter |
| `ImageCache.RoomExists` | go/internal/imagetransform/cache.go:98-111 | whatever the cache holds, there is a set of entries the eviction loop can stop at |
| `ImageCache.TotalSplits` | go/internal/imagetransform/cache.go:64-111 | the sizes kept and the sizes dropped add up to the sizes held |
| `ImageCache.ArriveServes` | go/internal/imagetransform/cache.go:58-90 | a call is served exactly a fresh entry of its key, else joins or starts the flight of the key; expired entries go and nothing else changes |
| `ImageCache.LandStores` | go/internal/imagetransform/cache.go:95-117 | a success is the entry of its key, a failure changes none, and the flight is over |
| `ImageCache.ServedWhileFresh` | go/internal/imagetransform/cache.go:58-118 | what has landed is served for exactly five minutes from the start of its computation |
| `ImageCache.Cache.Lookup` | go/internal/imagetransform/cache.go:58-90 | the first critical section, as the step the runs take: hit, shared flight or new flight |
| `ImageCache.Cache.Land` | go/internal/imagetransform/cache.go:95-117 | the second critical section, as the step the runs take: store on success in the room made, end the flight |
| `StorageRouter.Write` | go/internal/filestorage/router.go:131-177 | every attempt is handed a prefix of the source from byte zero, and all of it if its engine reads on to the end; there is a next attempt exactly while all so far failed and none consumed more than the budget; the stored engine is the first success |
| `StorageRouter.RewindReader.Read` | go/internal/filestorage/router.go:240-264 | the bytes handed out since the last rewind grow by exactly the chunk returned, as long as buffer, source and room allow, and stay a prefix of the source; an error is passed on exactly when the source was asked |
| `StorageRouter.RewindReader.Rewind` | go/internal/filestorage/router.go:268-274 | succeeds exactly while everything consumed fits the budget, and then starts over |
| `StorageRouter.RewindBudget` | go/internal/filestorage/router.go:209-217 | zero, or the greatest limit that any engine sets |
| `StorageRouter.CandidatesAreAccepting` | go/internal/filestorage/router.go:132-144 | the candidates are exactly the writable engines the file fits |
| `UploadRuns.MarkedIsStored` | go/internal/filestorage/uploads.go:188-225 | in every crash state of a session that is not cancelled, a chunk marked complete has a whole file with the recorded digest |
| `UploadRuns.AcknowledgedKept` | go/internal/filestorage/uploads.go:188-225 | acknowledged bytes never change while the session is not cancelled |
| `UploadRuns.CancelledForever` | go/internal/filestorage/uploads.go:300-352 | a cancelled session stays cancelled, whatever follows |
| `UploadRuns.CancelCleans` | go/internal/filestorage/uploads.go:321-352 | a finished cancellation, also one taken up again after a crash, leaves no chunk file |
| `UploadRuns.CleanedIsEmpty` | go/internal/filestorage/uploads.go:321-352 | in every crash state a session marked cleaned is cancelled and has no chunk file |
| `UploadRuns.CompleteIsStable` | go/internal/filestorage/uploads.go:420-458 | from every reachable complete session, every run without a cancellation leaves manifest and files as they are; sweeps included |
| `UploadRuns.ReadsExactly` | go/internal/filestorage/uploads.go:354-403 | a read of a complete session is accepted exactly for ranges inside it of at most one chunk's length, and returns that slice of the concatenated chunks |
| `UploadEffects.CreateDecides` | go/internal/filestorage/uploads.go:145-175 | a new session of an allowed size starts empty and lives a week; an old one is answered while it lives and for its own size only |
| `UploadEffects.DeadRefuses` | go/internal/filestorage/uploads.go:188-403 | a session that is cancelled, or was not completed in time, takes and gives nothing |
| `UploadEffects.PutDecides` | go/internal/filestorage/uploads.go:188-225 | in every reachable session that takes chunks, one is accepted exactly if it has a place and the right length and no other bytes are there; then it is stored there and nothing else changes |
| `UploadEffects.CompleteDecides` | go/internal/filestorage/uploads.go:226-299 | in every reachable session that takes chunks, completion succeeds exactly if all are there, with the digest of their concatenation |
| `UploadEffects.UploadRoundTrip` | go/internal/filestorage/uploads.go:145-403 | what is sent chunk by chunk and completed within the week has the digest of the content, and any slice up to a chunk's length reads back as sent |
| `UploadRuns.StepKeeps` | go/internal/filestorage/uploads.go:145-352 | every prefix of the durable writes of every operation keeps the invariant |
| `Uploads.Layout` | go/internal/filestorage/uploads.go:170-174 | the chunks tile the upload at multiples of the chunk size |
| `Uploads.Session.Create` | go/internal/filestorage/uploads.go:145-175 | the writes of Create, as far as the process lives |
| `Uploads.Session.Put` | go/internal/filestorage/uploads.go:188-225 | file first, manifest second; repeated chunks and conflicts as answered |
| `Uploads.Session.HashAll` | go/internal/filestorage/uploads.go:275-299 | the digest of the content exactly when every chunk is intact |
| `Uploads.Session.Complete` | go/internal/filestorage/uploads.go:226-249 | completes only an intact session, with the digest of its content |
| `Uploads.Session.Cancel` | go/internal/filestorage/uploads.go:300-320 | cancels, leaving a tombstone even for an unknown id |
| `Uploads.Session.CancelLocked` | go/internal/filestorage/uploads.go:321-352 | tombstone, unlinks, cleaned mark, in that order |
| `Uploads.Session.Read` | go/internal/filestorage/uploads.go:354-403 | the loop over the chunks the range touches, each checked first |
| `Uploads.Session.Sweep` | go/internal/filestorage/uploads.go:420-458 | cancels expired uploads and unfinished cancellations only |

## Left out

- HTTP routes, authentication, configuration and command lines: plumbing around the operations modelled here.
- Provider adapters, S3 and the Conduit client: only the class of their outcome is modelled.
- Webhook delivery, the integration effect ledger and the inbound relay: the same shapes as mail delivery, or without a clean promise.
- Image geometry and decoding, MIME building, schema comparison: library-bound or easy.
- `NewDispatcher`'s sorting and the sort of storage engines by priority: an order given to the model.
- The ORDER BY and class filter of the MySQL lease's SELECTs: the ids they hand to the UPDATEs are arbitrary, so the theorems do not depend on them.
- MySQL and Redis queues as one: they differ on purpose, for instance in `<` and `<=` at expiry, and are modelled apart.
- Redis payload keys and data ids, float rounding of scores above 2^53, and Redis expiry or eviction of keys.
- The candidate query's order and limit in the scheduler, and `lastEvaluatedEpoch`, which only affects that order.
- The matching of regular expressions in prose splitting: delimiters are maximal runs as the expressions describe them; text that is not valid UTF-8 is not modelled.
- A reader of a unified diff is taken to know the two file labels, which the format does not escape.
- `Stats`, `GetTask`, `ListActive`, `Status` and `Verify`: reads of the state modelled here.
- The lock files of uploads and the identifier pattern: a session is modelled under its lock; leftover temporary files are not.
- The image service's checks before the cache, and its counters.
- The bounds that the HTTP handlers put on waits and durations: the stores take any integer, and so do the models.
- A worker that leases or renews under the name of the yield, which the worker client never does.
- RedisQueue.RedisStore.Lease: takes the two orderings it walks as given; that they are what Redis answers is `Walks`, which the lease lemmas assume and `LeasePossible` shows can always be met.
- NestedTx.TxManager.CommitTx: models a commit the server takes; after one it rejects the state of the data is the server's to say.
- NestedTx.TxManager.RollbackTx: models a rollback the server takes, for the same reason.
- QueueStore.Store.FetchLeased: does not state the order of the returned rows, which nothing modelled here depends on.
- Scheduler.Store.Tick: a context cancelled between candidates and errors of the store itself are not modelled.
- MailLedger.Service.RecoverBatch: takes the selected rows as given; which 32 rows a batch selects is not modelled.
