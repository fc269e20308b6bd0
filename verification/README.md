# Phantom Share, verified

Phantom Share keeps encrypted text and file secrets for a limited number of views. This project models the parts of
it whose correctness depends on several processes or several stores agreeing, and proves what they keep over every
run: the quota ledger and the upload saga, the encrypted version history, the encrypted file format, optimistic file
updates, the sliding-window limiter, the client's token refresh, notification retries, share tokens, and the life of
a secret under its view budget and deletion locks.

Check everything with `dafny verify dfyconfig.toml`.

## How the files fit together

**Quota ledger and upload saga.** `QuotaScripts` has the four Redis scripts and the reaper, as functions and as a
store with loops. `Backend` puts them into one state machine with the database tables, the object store and any
number of request handlers, reconcilers and clean-up workers; each script and each transaction is one step, and a
usage read is three. `Shapes` is the referential invariant. `QuotaSafety` and `QuotaRuns` prove the quota bounds,
`SagaSafety` the object bounds; `QuotaWitness` and `FileWitness` exhibit, step by step from the empty backend, the
runs on which they fail. `UploadHandlers` and `StorageCleanup` write the handlers and the clean-up pass statement by
statement, with faults at each call and interference between any two, and show that what they do is a run of
`Backend`. `Amounts` and `UsageSums` hold the arithmetic of sums over tables.

`counter <= limit` is not an invariant, because a reconciliation counts a reservation that is already durable but not
yet committed twice. What holds of every reachable state is recorded in two ledgers that the state carries: `debt`
bounds by how much a counter may under-report a user's load (durable usage plus reservations that have yet to become
durable), and `excess` bounds by how much the load may exceed the limit. `Hazard` names the three events that can
raise them, and without hazards both stay zero. `Calm` turns the hazards into a rule for schedules, from the empty
backend (`LimitHoldsOnSchedule`): no reservation is undone that a live request relies on; a landed one is undone only
after a reconciliation whose read saw it landed (so the code's own recovery from a lost commit is allowed,
`RecoveryIsHarmless`, `RecoveryRepairs`); a reconciliation does not use a read during which a landed reservation of its user was settled;
and versions are landed by the owner of their secret. Limits are fixed. A counter that is created from a stale usage
read is not a hazard (`InitialCounterIsSound`): a settlement that such a read could miss needs a counter.

**Cryptography** is symbolic: `Bytes.Aead` is any pair of functions in which opening undoes sealing and a sealed text
is 16 bytes longer (section 2.8 of RFC 8439). Where forgeries matter, a theorem assumes that the stream at hand
contains none. The MAC of a share token is treated the same way.

**The other modules** are one per component: `FileFormat`, `VersionHistory` (text secrets against a plain list of
texts), `FileVersions` (two-phase updates and downloads), `RateLimit`, `TokenRefresh` (one process at a time) with
`TokenSharing` (processes that overlap), `NotificationRetry`, `ShareToken`, `Lifecycle`.

## Where the code differs from what it says or from what one expects

- Reconciliation reads the tables and runs its script as separate steps, so a counter can under-report, and a user can
  pass the limit (`StaleReconcileBreaksTheLimit`). Undisturbed, it sets the counter to the load plus, once more, the
  reservations that are already durable (`UndisturbedReconcileIsExact`); it does not under-report as long as the read
  misses nothing (`QuietReadMissesNothing`), and otherwise by at most what was settled behind the read
  (`StaleReconcileDrift`).
- A commit that is lost, so that the reaper undoes a durable reservation, lets a user pass the limit as well
  (`LostCommitBreaksTheLimit`).
- A file version uploaded by somebody else than the owner is reserved for the uploader but billed to the owner
  (`ForeignUpdateIsUncharged`), who can pass the limit that way (`ForeignUpdateBreaksTheLimit`).
- A commit that succeeds but is reported as failed, a sweep of a live request's pending row, and the deletion of a user
  with uploads under way break the link between that object and its rows (`VersionsCanLoseObjects`,
  `ObjectsCanBeOrphaned`); nothing else does (`ObjectsOverRuns`).
- A file cut at a frame boundary decrypts without an error (`CutStream`); the stored digest is not compared.
- Retry-After is rounded down: a client that waits exactly as told is let in only if the wait was a whole number of
  seconds or at most one (`RetryAfterTight`).
- The comment in `refreshAccessToken` says a crash cannot leave a stale token on disk. A crash between the server's
  answer and the save does (`CrashLeavesRotatedToken`).
- When the reply to a refresh is lost after the server has rotated, the client keeps the spent token and presents it
  again, in the same process and in the next (`LostReplyIsPresentedAgain`); exactly which tokens are spent is in
  `RefreshedOnce` and `SpentAfterRestart`.
- The limiter forgets accepts when its key expires under a slow request, and then lets too many through, in that
  request or in later ones (`SlowRequestOutlivesKey`, `ExpiryIsFeltLater`); `WrongExactly` says when, for clocks that
  never run backwards. With clocks that do (`BackwardClockForgets`), `CountsOverRuns` and `SlotSurvivesExactly` say what
  it counts.
- Nothing locks the configuration file. Of two command line processes that overlap, the second presents a token that
  the first has had rotated, and when the server rejects it, clears the file of the first (`OverlapPresentsRotated`).
- The retry loop acknowledges an exhausted message before reporting it, so a crash in between loses the message
  (`AlertCanBeLost`), and republishes before acknowledging, so a crash in between doubles it
  (`PresenceChangesExactly`), so that the mail can be sent twice (`DoublingSendsTwice`). So can one whose handler dies
  between sending and acknowledgement (`CrashSendsTwice`); one whose handler fails there is sent again, or alerted as
  failed after the fourth time (`SentYetAlerted`). `SendingsOverRuns` counts the sendings.
- A download does not look at the expiry again when it consumes a view, so it can be counted long after the expiry
  (`DownloadAfterExpiry`, `LateDownloadExactly`).
- A share token is optional: without one only the location is checked (`ShareToken.DecidedExactly`).

## Model

| member | source | states |
|---|---|---|
| QuotaScripts.ScriptsKeepWellFormed | app/services/quota_service.py:15-72 | every script and the reaper keep the sorted set listing exactly the reservation hashes, none flagged committed, all for users with a counter |
| QuotaScripts.AcceptedIffBothFit | app/services/quota_service.py:15-36 | a reservation is granted exactly when both new counters fit; a denial names the first limit exceeded and reserves nothing; other users are untouched |
| QuotaScripts.SettlingUndoesOrKeeps | app/services/quota_service.py:38-58 | releasing a grant restores the ledger, committing it keeps only the charge |
| QuotaScripts.FirstSettlementDecides | app/services/quota_service.py:38-58 | for any order and repetition of commit, release and reap on one reservation, the first decides and the rest change nothing |
| QuotaScripts.ReapOneMore | app/services/quota_service.py:181-198 | reaping one more key takes exactly what that key's reservation held from its user, and nothing from anybody else |
| QuotaScripts.QuotaStore.RunReserve | app/services/quota_service.py:15-36 | the script in place computes the reservation function |
| QuotaScripts.QuotaStore.RunRelease | app/services/quota_service.py:38-50 | the script in place computes the release function, including the absent hash and the committed flag |
| QuotaScripts.QuotaStore.RunCommit | app/services/quota_service.py:52-58 | flagging, unlisting and deleting amounts to removing the reservation and leaving the counter |
| QuotaScripts.QuotaStore.RunReconcile | app/services/quota_service.py:60-72 | the loop over the sorted set sets the counter to the durable usage plus the user's reservations, each counted once |
| QuotaScripts.QuotaStore.ReapOne | app/services/quota_service.py:186-197 | one round of the reaper releases the hold behind a key or drops a key that has none |
| QuotaScripts.QuotaStore.ReapExpired | app/services/quota_service.py:181-198 | every indexed reservation with a score between 0 and now is gone from hashes and index afterwards, every other one is as it was, and each user's counter has lost exactly what the former held |
| UsageSums.OwnSum | app/routers/files.py:98-133 | a request holds at most one reservation per dimension, of the size it asked for |
| UsageSums.ReconcileSum | app/services/quota_service.py:60-72 | what reconciliation adds covers the reservations ahead of the tables and those the read has not seen |
| QuotaSafety.LoadAfterReserve | app/services/quota_service.py:146-171 | a granted reservation raises the load by what it asks for, a denied one by nothing |
| QuotaSafety.LoadAfterLand | app/routers/files.py:146-208 | when a transaction commits, the load changes only by what the payer had not reserved |
| QuotaSafety.GainIsBackedOrStray | app/routers/file_versions.py:75-173 | what a transaction adds to its payer is covered by the payer's reservations or counted as stray |
| QuotaSafety.DeletionConservesBytes | database/migrations/20260915000000_file_sharing.sql:58-72 | deleting a secret frees one slot of its owner and moves its bytes to the outbox without changing their sum |
| QuotaSafety.BytesChangeExactly | app/services/cleanup_service.py:285-295 | over every step, a user's bytes rise only when a version of theirs lands, by its size, and fall only when an outbox row of theirs is marked processed, by exactly what was billed, or when the user is deleted |
| QuotaSafety.ProcessingFreesBilledBytes | app/services/cleanup_service.py:285-295 | moving an outbox row to a stage changes its owner's bytes by the bill exactly when it becomes processed |
| QuotaSafety.StepKeepsTracks | app/services/quota_service.py:105-130 | at every point of a usage read, what it has seen, what still has a reservation and what it missed together cover the tables |
| QuotaSafety.StepKeepsUser | app/services/quota_service.py:15-72 | every step keeps every user's counter covering the load up to the debt, and the load within the limit up to the excess |
| Shapes.StepKeepsShape | database/migrations/20260915000000_file_sharing.sql:30-72 | every step keeps requests, reservations, rows, pending rows and queued deletions referring to each other consistently |
| QuotaRuns.QuotaOverRuns | app/services/quota_service.py:15-178 | both bounds are kept over every interleaving of handlers, reconcilers and clean-up, for secrets and bytes |
| QuotaRuns.QuotaFromEmpty | app/services/quota_service.py:15-178 | in every state reachable from the empty backend, for any nonnegative limits, a counter covers its user's load up to the debt and the load is within the limit up to the excess |
| QuotaRuns.EmptyIsGood | app/services/quota_service.py:15-72 | they hold at the start, for any nonnegative limits |
| QuotaRuns.CleanOverRuns | app/services/quota_service.py:146-210 | without hazards nothing is ever owed, and live requests keep the reservations they rely on |
| QuotaRuns.LimitHolds | app/services/quota_service.py:146-178 | without hazards durable usage plus outstanding reservations never exceed the limit |
| QuotaRuns.InitialCounterIsSound | app/services/quota_service.py:25-27 | without hazards, a counter that the reserve script creates from a usage read covers the user's load, however stale the read |
| QuotaRuns.LimitHoldsOnSchedule | app/services/quota_service.py:133-178 | on every calm schedule from the empty backend, durable usage plus outstanding reservations never exceed the limit; the premise is a rule for the next step, given the steps so far |
| QuotaRuns.RecoveryIsHarmless | app/routers/files.py:215-219 | after a reconciliation whose read saw a transaction landed, reaping that transaction's reservation is no hazard and owes nothing |
| QuotaRuns.RecoveryRepairs | app/routers/files.py:215-219 | from any state, an undisturbed reconciliation after a failed commit, followed by the reaper, leaves a counter that covers the user's whole load, whatever it under-reported before |
| QuotaRuns.UndisturbedReconcileIsExact | app/services/quota_service.py:133-143 | a reconciliation that nothing interrupts leaves the load alone and sets the counter to it plus, once more, the reservations whose transactions have committed |
| QuotaRuns.AtomicRead | app/services/quota_service.py:105-143 | a usage read that nothing interrupts returns exactly the durable usage and misses nothing |
| QuotaRuns.QuietReadMissesNothing | app/services/quota_service.py:105-143 | an interrupted read misses nothing if none of the user's landed reservations is settled meanwhile |
| QuotaRuns.StaleReconcileDrift | app/services/quota_service.py:133-143 | from the start of a usage read to the reconciliation with it, the counter then under-reports by at most what was settled, or landed unreserved, after the statement that would have counted it, reservation by reservation |
| QuotaRuns.ForeignUpdateIsUncharged | app/routers/file_versions.py:75-170 | a version landed by another user raises the owner's load by its size and leaves every counter alone |
| QuotaWitness.StaleReconcileBreaksTheLimit | app/services/quota_service.py:133-143 | a run from the empty backend after which a limit of one secret is exceeded by one, because a reconciliation used a read that a commit overtook |
| QuotaWitness.LostCommitBreaksTheLimit | app/services/quota_service.py:174-198 | the same without any reconciliation, because a commit is lost and the reaper undoes the reservation |
| FileWitness.ForeignUpdateBreaksTheLimit | app/routers/file_versions.py:75-170 | a run from the empty backend after which a limit of one byte is exceeded by one, because an administrator added a version |
| SagaSafety.StepKeepsKey | app/services/cleanup_service.py:262-331 | every step that is not a hazard for an object key keeps it consistent with its rows and its request's phase |
| SagaSafety.ObjectsOverRuns | app/routers/files.py:125-241 | over every run none of whose steps is one of three hazards for an object, that object stays consistent, whatever happens to the others |
| SagaSafety.ObjectsFromEmpty | app/routers/files.py:125-241 | after every such run from the empty backend the object, if stored, is referenced by a version, a pending row or an unprocessed deletion, and, if a version's, is stored |
| SagaSafety.UnreportedCommitLosesObject | app/routers/files.py:231-236 | a commit that succeeds but is reported as failed makes the compensation delete a committed version's object |
| SagaSafety.SweepingLiveRequestLosesObject | app/services/cleanup_service.py:276-313 | a sweep that selects the pending row of a request which then commits deletes that version's object |
| SagaSafety.DeletingUploaderOrphansObject | database/migrations/20260915000000_file_sharing.sql:33-42 | deleting a user between upload and commit leaves an object that no row leads to and no commit can adopt |
| SagaSafety.VersionsCanLoseObjects | app/routers/files.py:231-236 | runs from the empty backend, through a stored first upload, in which the first and the second hazard leave a version without its object |
| SagaSafety.ObjectsCanBeOrphaned | database/migrations/20260915000000_file_sharing.sql:33-42 | a run from the empty backend in which the third hazard leaves an object that nothing leads to |
| SagaSafety.StoredIsBilled | app/services/quota_service.py:113-130 | a user's billed bytes cover the plaintext sizes of the user's stored committed and deletion-queued objects |
| UploadHandlers.InterferenceUndisturbed | app/routers/files.py:98-241 | no sequence of other processes' steps changes a request's phase or usage read, or gives it a reservation or an object |
| UploadHandlers.Handler.ReserveNext | app/services/quota_service.py:146-171 | the request moves on exactly when the script grants the reservation and the reply arrives; a grant keeps the reported counter within the limit and is indexed with its expiry, a denial means there is no room; only a lost reply leaves a reservation the handler does not know of, for that dimension alone |
| UploadHandlers.Handler.StageIf | app/routers/files.py:125-136 | the pending row is inserted and the upload goes on exactly when the insert is heard to work and the user still exists |
| UploadHandlers.Handler.LandIf | app/routers/files.py:146-214 | the transaction is durable for the handler exactly when it is heard to work and user and secret are still there; when it takes place, heard or not, it has landed |
| UploadHandlers.Handler.Compensate | app/routers/files.py:231-241 | the except branch removes the object and the reservations it is asked to, whichever of its other calls fail |
| UploadHandlers.Handler.CreateText | app/routers/secrets.py:105-192 | under any interference: a call that meets no fault, is granted its reservation and whose user stays commits, and nothing else does; after a commit the handler releases nothing, and otherwise nothing is left unless the release failed or the reservation's reply was lost |
| UploadHandlers.Handler.Settle | app/routers/files.py:215-219 | the commits run one after the other until one is not heard to work, and then the handler reconciles; each commit that took place has settled its reservation, and nothing is released |
| UploadHandlers.Handler.CreateFile | app/routers/files.py:84-241 | the same with two reservations, a pending row and an object: without a fault it commits, settles both reservations and keeps the object; otherwise it ends without the object and the reservations whose clean-up took place; an infected file is never stored |
| UploadHandlers.Handler.UpdateFile | app/routers/file_versions.py:37-200 | the same for a new version of an existing secret, which also must stay until the commit; a refused or infected update leaves nothing behind |
| UploadHandlers.Handler.KeepsInvariants | app/routers/files.py:84-241 | executions of the handlers keep the quota bounds, and the consistency of every object they contain no hazard for |
| StorageCleanup.StepRemembers | app/services/cleanup_service.py:285-320 | no step undoes a recorded deletion, and a dropped pending row or a released reservation of a request past its reservations does not come back |
| StorageCleanup.Sweeper.ProcessRow | app/services/cleanup_service.py:285-307 | a queued object whose delete succeeds ends marked processed, even if another sweep marks it first |
| StorageCleanup.Sweeper.ProcessPending | app/services/cleanup_service.py:309-320 | a pending row whose delete succeeds is gone afterwards, and so is its reservation if the release succeeds too, in spite of any interference |
| StorageCleanup.Sweeper.Pass | app/services/cleanup_service.py:262-320 | a whole pass over both selections is part of a run and ends with each row as far as its calls got: objects recorded as deleted, outbox rows processed, pending rows gone, reservations released |
| Bytes.UnpackPack | app/services/file_crypto.py:31-31 | unpacking undoes packing for every 32-bit integer, big-endian |
| FileFormat.RoundTrip | app/services/file_crypto.py:20-59 | decrypting an encrypted file yields the file, for every text of at most 2^32 chunks |
| FileFormat.EncryptedSize | app/services/file_crypto.py:20-32 | the encrypted length is 20 + n + 20 * ceil(n / 2^20) |
| FileFormat.NoncesDistinct | app/services/file_crypto.py:29-30 | chunk nonces, and associated data, are equal exactly for equal indices |
| FileFormat.CutStream | app/services/file_crypto.py:35-59 | a cut file is accepted exactly when it holds the header and ends on a frame boundary, and then yields exactly the chunks that are left |
| FileFormat.AcceptedStreamIsPrefix | app/services/file_crypto.py:35-59 | a stream without forgeries that is accepted yields the first chunks of the file, so frames cannot be reordered, repeated, skipped or taken from another version |
| FileFormat.EncryptFile | app/services/file_crypto.py:17-32 | the read loop writes the encrypted form and counts the bytes, and fails exactly beyond 2^32 chunks |
| FileFormat.DecryptFile | app/services/file_crypto.py:35-59 | the frame loop computes the parser, errors included, and on success has written the text |
| VersionHistory.LatestKey | app/services/key_service.py:57-68 | the highest key version, or 0 when there is none |
| VersionHistory.Refines | app/routers/secret_versions.py:70-226 | each of update, restore and rotate does to the encrypted tables what it does to a plain list of texts, and answers the same |
| VersionHistory.RunRefines | app/services/key_service.py:45-171 | so does every sequence of them |
| VersionHistory.RetrievesNewest | app/routers/secrets.py:308-322 | a retrieval opens the content with the highest key and returns the newest text |
| VersionHistory.HistoryGrows | app/routers/secret_versions.py:99-123 | the list only grows and never passes the version limit |
| VersionHistory.CreatedThenRun | app/routers/secrets.py:124-151 | from creation on, versions are exactly 1..current, each opens under its recorded key to the text it was saved with, and the newest is what is read |
| VersionHistory.Untouchable | app/services/key_service.py:136-144 | client-encrypted and file secrets are refused by all three operations, which then change nothing |
| VersionHistory.RefusedExactly | app/routers/secret_versions.py:70-226 | an absent secret is not found and a stranger is turned away; the owner of a client-encrypted or file secret gets the one refusal its kind, expiry, version and limit call for, for each operation |
| VersionHistory.NothingIsOverwritten | app/routers/secret_versions.py:30-67 | whatever the tables hold, no operation overwrites or drops a key, or a version other than the current one in a rotation |
| VersionHistory.ClientTextComesBack | app/routers/secrets.py:313-322 | a client-encrypted secret always reads back as the ciphertext it was created with, in its first and only version |
| VersionHistory.NoTextToRead | app/routers/secrets.py:258-277 | an absent secret and a file secret are refused as such |
| VersionHistory.Zero | app/services/key_service.py:151-154 | the plaintext buffer is all zero afterwards |
| VersionHistory.SecretStore.CreateVersionKey | app/services/key_service.py:45-72 | the new key gets the next version number and no other key changes |
| VersionHistory.SecretStore.InsertTextVersion | app/routers/secret_versions.py:30-67 | the transaction in place computes the function, and a duplicate version rolls the key back |
| VersionHistory.SecretStore.Update | app/routers/secret_versions.py:70-123 | the transaction computes the update, with every refusal in the code's order |
| VersionHistory.SecretStore.Restore | app/routers/secret_versions.py:182-226 | the transaction computes the restoration |
| VersionHistory.SecretStore.Rotate | app/services/key_service.py:105-171 | the transaction computes the rotation; absent content aborts it |
| FileVersions.StepKeepsGood | app/routers/file_versions.py:37-185 | every step of every updater and downloader keeps versions, keys, objects and seals in agreement |
| FileVersions.OneWinnerPerVersion | app/routers/file_versions.py:104-123 | however updates race, at most one commits for each base version |
| FileVersions.CommitWinsExactly | app/routers/file_versions.py:104-170 | a commit wins exactly when its upload is done and the version it expected is still current; it then adds that version under a key numbered one above all others and leaves every other version and key alone; a loser changes nothing |
| FileVersions.GivenUpStaysOut | app/routers/file_versions.py:171-200 | an update that has failed, because it lost or was given up, never becomes a version |
| FileVersions.VersionsMatchKeys | app/routers/file_versions.py:117-133 | in every run, while the secret exists, its keys are 1..current and version i is sealed under key i |
| FileVersions.VersionsMatchSeals | app/routers/file_versions.py:76-80 | versions are exactly 1..current, and the number sealed into a version's object before the lock is that version's number |
| FileVersions.LockedReadIsCurrent | app/routers/files.py:296-329 | an object fetched for the current version opens under the recorded key to the uploaded file |
| FileVersions.DownloadsAreExact | app/routers/files.py:281-329 | whatever a download returns is the file uploaded as the version it read, and that version was current when it returned |
| FileVersions.FetchedDownloadSucceeds | app/routers/files.py:296-329 | a download that has its object and finds its version current succeeds |
| FileVersions.UpdateIsDownloaded | app/routers/file_versions.py:37-185 | at any point of any run an update of the current version that nobody disturbs becomes the next version, and a download after it returns its file |
| FileVersions.FileStore.CommitUpdate | app/routers/file_versions.py:104-170 | the locked transaction in place computes the commit that CommitWinsExactly describes |
| FileVersions.FileStore.ReadLocked | app/routers/files.py:296-329 | the locked part of a download computes the read, through the file decryption loop |
| RateLimit.DecidesByHistory | app/core/rate_limit.py:32-55 | the pruned set decides and counts as the full accept history would |
| RateLimit.LimiterOverRuns | app/core/rate_limit.py:32-55 | over every orderly run a request is accepted exactly when fewer than the maximum lie in its window, and no window ever holds more |
| RateLimit.WrongExactly | app/core/rate_limit.py:40-54 | over every run whose clock never runs backwards, a decision differs from the full history's exactly when the window is full and would not be without the accepts whose key has expired since, under this request or an earlier one |
| RateLimit.ForgottenIsExpired | app/core/rate_limit.py:40-53 | over such runs, the accepts of a window that the set has forgotten are exactly those after which some request ran at or after the key's deadline |
| RateLimit.FirstWrongExactly | app/core/rate_limit.py:40-53 | one step: while the set lacks only what the window has left behind, a decision is wrong exactly when the key expires under the request while its window is full |
| RateLimit.SteadyIsOrderly | app/core/rate_limit.py:91-94 | clocks that do not run backwards and lags between sample and script that never grow make a run orderly, so the key's expiry never changes a decision |
| RateLimit.LimiterOnSteadyClocks | app/core/rate_limit.py:32-55 | from an empty key and with such clocks, a request is accepted exactly when fewer than the maximum lie in its window, and no window ever holds more |
| RateLimit.CountsOverRuns | app/core/rate_limit.py:40-54 | after any run with clocks in any order, the script counts the accepts in the window, less the forgotten ones, plus those ahead of the request's clock, and decides by that |
| RateLimit.SlotSurvivesExactly | app/core/rate_limit.py:40-53 | a slot is still held after a run exactly when every request of it ran before the key's expiry and with a window start before the slot |
| RateLimit.RejectionIsWarranted | app/core/rate_limit.py:40-49 | after any run with clocks in any order a rejection is still justified by the accepts since the window began |
| RateLimit.BackwardClockForgets | app/core/rate_limit.py:40-41 | a clock running backwards admits a request that the full history rejects |
| RateLimit.SlowRequestOutlivesKey | app/core/rate_limit.py:51-53 | so does a key that expires while a request is under way |
| RateLimit.ExpiryIsFeltLater | app/core/rate_limit.py:51-53 | so does a key that expired under an earlier request, rightly accepted, although it has not expired again |
| RateLimit.RetriedScript | app/core/rate_limit.py:69-74 | running the script twice for one request leaves the set as after one, but rejects a request that took the last slot |
| RateLimit.RetryAfterInRange | app/core/rate_limit.py:98-104 | Retry-After lies between 1 and the window length |
| RateLimit.NoSlotsAtAll | app/core/rate_limit.py:43-49 | with no slots to give every request is rejected, and told to wait for a whole window when none is taken |
| RateLimit.RejectedUntilSlotFrees | app/core/rate_limit.py:43-49 | after a rejection and any orderly requests, every request is rejected until the oldest accept has left the window |
| RateLimit.SlotFreesWithOldest | app/core/rate_limit.py:43-49 | if none of the requests in between is accepted, a request is accepted exactly from then on |
| RateLimit.RetryAfterTight | app/core/rate_limit.py:98-104 | over any orderly run after a rejection no request sooner than told is let in, once the wait is a second; with no accept in between, waiting as told suffices exactly for whole waits or waits of at most a second, and one second more always does |
| RateLimit.SlidingWindow.RunScript | app/core/rate_limit.py:32-55 | the script in place computes the evaluation |
| TokenRefresh.StepKeepsGood | cli/internal/api/client.go:111-227 | every step of every goroutine, and every crash, keeps the session invariants |
| TokenRefresh.PersistedBeforeUse | cli/internal/api/client.go:211-225 | with one process at a time: when the mutex is free a usable refresh token in memory belongs to the pair on disk, and no access token is sent before it was on disk |
| TokenRefresh.RefreshedOnce | cli/internal/api/client.go:181-209 | with one process at a time, none of which died between grant and save or with neither save nor clear: a token the server has rotated is presented exactly when the reply to an earlier refresh with it was lost, and no access token is refreshed twice |
| TokenRefresh.AtMostTwice | cli/internal/api/client.go:111-135 | one request makes at most two sends and two refreshes |
| TokenRefresh.AsksWithStoredToken | cli/internal/api/client.go:111-118 | a request whose token is about to expire asks for new ones with the stored refresh token before it is sent |
| TokenRefresh.SendsAtOnce | cli/internal/api/client.go:111-129 | one whose token is not is sent with it, is finished unless it is challenged, and then too if there is no refresh token |
| TokenRefresh.ChallengedGoesOn | cli/internal/api/client.go:125-135 | a challenged request refreshes, once and only if nobody else has, and is sent again with the token then in memory; after a failed refresh it is not |
| TokenRefresh.SpentAfterRestart | cli/internal/api/client.go:195-223 | with one process at a time: the next process starts on a token the server has rotated exactly when the pair on disk is usable and its refresh reply was lost, or the crash fell between grant and save, or save and clear both failed |
| TokenRefresh.CrashLeavesRotatedToken | cli/internal/api/client.go:211-213 | a run in which a crash leaves a rotated token on disk and the next process presents it |
| TokenRefresh.LostReplyIsPresentedAgain | cli/internal/api/client.go:195-209 | runs in which a lost reply has the spent token presented again, by the same process and by the next |
| TokenSharing.SpentExactly | cli/internal/api/client.go:181-227 | however processes overlap, end and die: none presents a refresh token for which it has received a grant itself, so a token the server has rotated is presented exactly when the reply to a refresh with it was lost or the grant went to another process |
| TokenSharing.SentWasSaved | cli/cmd/client.go:10-28 | however processes overlap, no access token is sent that was not in the file before, and a request makes at most two sends and two refreshes |
| TokenSharing.OverlapPresentsRotated | cli/internal/config/config.go:52-77 | a run of two processes in which no reply is lost and nobody ends, and the second presents a rotated token and then clears the file of the first |
| TokenRefresh.MutexMakesWait | cli/internal/api/client.go:169-183 | whoever wants to read the tokens or to renew them waits for the mutex |
| TokenRefresh.SomeoneCanMove | cli/internal/api/client.go:181-184 | the mutex is never stuck: while a request is unfinished, some request can take a step |
| TokenRefresh.PassIsCriticalSection | cli/internal/api/client.go:185-227 | the steps of the critical section, taken in a row, amount to one case distinction on the answers |
| TokenRefresh.Client.RefreshAccessToken | cli/internal/api/client.go:181-227 | the method leaves fields and file as the steps of the critical section do, and lets the request go on exactly when they do; it tells apart success, an ended session, a refresh that failed and a pair that could not be saved |
| NotificationRetry.PresenceChangesExactly | app/services/notification_worker.py:166-209 | over every step, the places and outcomes of a message become one more exactly on its first publishing or a crash between republish and acknowledgement, and one less exactly on a crash between acknowledgement and report |
| NotificationRetry.NothingVanishes | app/services/notification_worker.py:105-209 | in every run a published message is on its way, delivered or alerted once, plus the crashes that doubled it, less those that dropped it, in each channel |
| NotificationRetry.OneAtATime | app/services/notification_worker.py:153-164 | there is one retry loop, so in no run does it hold messages of both channels |
| NotificationRetry.UnacknowledgedExactly | app/services/notification_worker.py:105-151 | over every step, a sending is left without acknowledgement exactly by a crash or a rejection between the two |
| NotificationRetry.SendingsOverRuns | app/services/notification_worker.py:105-209 | in every run a message's sendings are those acknowledged, those that may still be, and those hit by a crash or late rejection; beyond the first there are at most as many as crashes doubled the message or hit a sending of it |
| NotificationRetry.SentAtMostOnce | app/services/notification_worker.py:105-209 | a message that no crash doubled and none of whose sendings was hit is sent at most once, whatever happens to others |
| NotificationRetry.DoublingSendsTwice | app/services/notification_worker.py:208-209 | a run in which a crash between republish and acknowledgement has the mail sent twice, each time acknowledged |
| NotificationRetry.SentYetAlerted | app/services/notification_worker.py:113-184 | a run in which a mail that was sent is alerted as failed |
| NotificationRetry.CrashSendsTwice | app/services/notification_worker.py:113-123 | a run in which a crash after the sending has the mail sent twice |
| NotificationRetry.FourRunsAtMost | app/services/notification_worker.py:166-185 | without crashes a message has at most four handler runs with at most one sending each, is delivered or alerted at most once and never both, and is alerted only after four |
| NotificationRetry.ActLowersWeight | app/services/notification_worker.py:166-209 | every action that does anything lowers the weight of the queues |
| NotificationRetry.DrainingEnds | app/services/notification_worker.py:160-209 | with nothing published and no crash, a run has at most as many effective steps as the queues weigh |
| NotificationRetry.RestIsEmpty | app/services/notification_worker.py:166-209 | when no action does anything, nothing is on its way |
| NotificationRetry.EachDeliveredOrAlertedOnce | app/services/notification_worker.py:105-209 | after every crash-free run that has come to rest, each published message is delivered or alerted exactly once, and sent once for its delivery and once for each late rejection |
| NotificationRetry.AlertCanBeLost | app/services/notification_worker.py:183-184 | a run after which a published message is nowhere, neither delivered nor alerted |
| NotificationRetry.Broker.RetryOne | app/services/notification_worker.py:166-209 | one round of the retry loop republishes with the next attempt number or gives up after the third |
| NotificationRetry.Broker.Drain | app/services/notification_worker.py:153-209 | handlers and retry loop empty both queues; each message ends delivered or alerted according to which of its handler runs succeed |
| ShareToken.RenderParses | app/core/security.py:90-117 | parsing undoes rendering for every integer |
| ShareToken.BlanksAreIgnored | app/core/security.py:104-117 | so it does with blanks before and after the number |
| ShareToken.VerifyUndoesCreate | app/core/security.py:83-131 | for every dot-free id, expiry and version a created token is accepted exactly until it expires and only for its own policy version; three-part tokens count as version 1 |
| ShareToken.PayloadsNeverCollide | app/core/security.py:102-111 | two grants with the same payload are the same grant, within and between the two token forms |
| ShareToken.AcceptedWasGranted | app/core/security.py:99-131 | with an ideal MAC an accepted token was granted with its id, an expiry not yet passed and the expected version |
| ShareToken.VersionsGrow | app/routers/secret_access.py:45-65 | a secret's policy version only grows, and a deleted secret does not come back |
| ShareToken.DecidedExactly | app/services/location_policy_service.py:74-115 | for every token or none: a secret opens exactly when it exists, the location is allowed, and the token is absent or empty or is one granted for this id and the current policy version and not expired; each refusal has its exact condition, and the location is asked with and without a token |
| ShareToken.AuthorizedByGrant | app/services/location_policy_service.py:74-115 | a token that authorizes a secret was granted for that secret and its current policy version |
| ShareToken.RevokedForGood | app/routers/secret_access.py:45-79 | a token that worked before a policy update authorizes at no later time, whatever else happens |
| ShareToken.NewTokenWorks | app/routers/secret_access.py:66-71 | the token made by an update authorizes until it expires |
| ShareToken.FirstTokenWorks | app/core/security.py:83-97 | the token made with a secret authorizes it until it expires, where the location is allowed |
| ShareToken.DeletedForGood | app/services/location_policy_service.py:86-90 | a deleted secret is not found by anybody, whatever happens afterwards |
| ShareToken.PolicyRow.UpdatePolicy | app/routers/secret_access.py:31-79 | the update raises the version, stores a token that verifies for it, and leaves the old token refused |
| Lifecycle.StepKeepsGood | app/routers/secrets.py:241-371 | every step of readers, updaters, deleters and lock holders keeps the invariants |
| Lifecycle.BudgetHolds | database/migrations/20260911000000_initial_schema.sql:152-176 | successes never exceed the budget, the row counts them and burns exactly at the last, and the history has a row for each while tracking is kept |
| Lifecycle.AttemptCountsOnce | app/routers/files.py:296-349 | a refused attempt changes nothing but itself; a successful one counts one view, and the row goes exactly with the last |
| Lifecycle.TextCountsExactly | app/routers/secrets.py:262-356 | a text view is counted exactly when the reader is authorized for the row's policy, the row is an unexpired text with views left, the password is right, the ciphertext opens and, if it is restricted, the reader is a recipient and the view is recorded |
| Lifecycle.TextAnswers | app/routers/secrets.py:262-356 | a refused retrieval is answered with the first of these conditions that fails, in this order |
| Lifecycle.PeekPassesExactly | app/routers/files.py:258-277 | a download passes its first look exactly when a file row that has neither expired nor used up its views has the policy it was authorized for, the password is right and a restricted row lists the reader |
| Lifecycle.PeekAnswers | app/routers/files.py:258-277 | a refused first look is answered with the first condition that fails |
| Lifecycle.DownloadCountsExactly | app/routers/files.py:296-349 | a download is counted exactly when it passed its first look and the row still has that content and policy and views left, and the object opens |
| Lifecycle.ConsumeAnswers | app/routers/files.py:296-349 | a refused second look is answered with the first condition that fails |
| Lifecycle.RemovedAndReportedOnce | app/services/cleanup_service.py:92-124 | the row is removed once and at most one of trigger, worker, sweep and owner reports it, even when locks run out |
| Lifecycle.RemovalExactly | app/services/cleanup_service.py:165-170 | over every step, the row goes exactly when its owner deletes it, its last view is counted, an expiry worker deletes it, or a sweep does after its expiry or with its views used up |
| Lifecycle.SweepSparesTheLiving | app/services/cleanup_service.py:165-170 | over all runs from creation, no sweep removes a secret that has not expired and has views left |
| Lifecycle.SweepTakesTheExpired | app/services/cleanup_service.py:165-170 | and any that gets to its deletion after the expiry removes it |
| Lifecycle.ReportsExactly | app/services/cleanup_service.py:92-124 | over every step, a report is written exactly for an owner's deletion, for the last view, and by a worker that did remove the row |
| Lifecycle.OneOwner | app/services/cleanup_service.py:48-59 | two workers are inside one lock's section only if the time of at least one has run out |
| Lifecycle.LockSurvivesOthers | app/services/cleanup_service.py:62-77 | a worker with time left keeps its lock whatever any other does, late releases included |
| Lifecycle.LockLapses | app/services/cleanup_service.py:48-59 | whatever happened, and whoever crashed, a new worker that waits for as long as a lock lasts gets it |
| Lifecycle.ReleaseLetsIn | app/services/cleanup_service.py:62-77 | a worker that releases in time lets the next one in at once |
| Lifecycle.UpdateShutsOutEarlierReaders | app/routers/files.py:311-312 | a reader authorized before a policy update never succeeds after it |
| Lifecycle.PolicyUpdateShutsOut | app/routers/secret_access.py:45-65 | so a policy update shuts out for good whoever was authorized before it |
| Lifecycle.ContentUpdateShutsOut | app/routers/files.py:309-310 | a download whose content is replaced between its two looks is never counted, in any run |
| Lifecycle.VersionsCount | app/routers/secret_access.py:45-65 | over all runs from creation, policies and contents are numbered by their updates, from one |
| Lifecycle.ViewsAreInTime | app/routers/secrets.py:262-270 | over all runs from creation no text view is counted after the expiry, and no download whose first look was not before it |
| Lifecycle.LateDownloadExactly | app/routers/files.py:275-314 | at or after the expiry, in every reachable state, a download is counted exactly when its first look came before the expiry and the row is still there, unchanged, within budget and readable |
| Lifecycle.DownloadAfterExpiry | app/routers/files.py:275-314 | a run from creation in which a download is counted 90 seconds after the expiry |
| Lifecycle.SecretRecord.UpdateViewCount | database/migrations/20260911000000_initial_schema.sql:152-176 | the trigger removes and reports the row exactly when the count reaches the budget |
| Lifecycle.SecretRecord.RetrieveText | app/routers/secrets.py:241-371 | the transaction refuses for the first reason in the code's order and then changes nothing, or counts one view |
| Lifecycle.SecretRecord.ConsumeDownload | app/routers/files.py:296-349 | the same for the locked part of a download |
| Lifecycle.LockStore.Acquire | app/services/cleanup_service.py:48-59 | a lock is granted exactly when none is unexpired, under a new token |
| Lifecycle.LockStore.Release | app/services/cleanup_service.py:62-77 | compare-and-delete removes the lock only for the token that holds it |

## Left out

- HTTP routing, request schemas, permissions beyond ownership as a yes or no, CORS, tracing, QR codes, SMTP, webhooks, HTML pages and the CLI commands: no property that spans operations.
- ChaCha20-Poly1305, HMAC, SHA-256, bcrypt and JWT: symbolic functions; drawn keys, nonces, tokens and uuids are parameters or numbers that are new by construction.
- ClamAV and S3: clean or infected, success or failure; deleting an object that is gone succeeds.
- Postgres isolation: a locked SELECT with its transaction is one step, and stale joined rows after a lock wait are not modelled; nor is the aborted transaction that a swallowed audit failure can leave behind.
- Base64 and UTF-8: texts are byte strings.
- Floats: clocks are exact, real or integer; the rounding of timestamps is not modelled.
- User quotas: limits are fixed over a run, so a limit lowered below current usage is not modelled.
- Whether an audit row is really written: a report is the call.
- The count that the reaper returns, the totals that the clean-up pass returns, and the back-off of failed deletions.
- Server-side session rotation: the refresh server is any issuer of new tokens.
- TokenRefresh: one process at a time uses the configuration file; TokenSharing has them overlap, but login and logout, which also write the file, are in neither.
- Location policies: whether an address is allowed is a yes or no.
- Loss of Redis data: keys go away only by the scripts and the expiry times that the model gives them.
- Unicode digits and blanks in `int()`: only the ASCII ones are parsed.
- The message bodies: a message is its number and its attempt header.
- app/routers/file_versions.py and app/routers/files.py keep their state in three stores shared with other processes: their handlers are ghost methods over the state machine, because each of their statements meets a state that others have changed.
- UploadHandlers.Handler.UpdateFile: a failed check of phase one, or a changed version in the transaction, is one of its faults; that exactly the expected version wins is stated in FileVersions.
- FileVersions: a secret's creation is its starting point, and the names of files, which are sealed under the same key, are not modelled.
- VersionHistory.SecretStore: holds the rows of one secret; the statements name no other.
