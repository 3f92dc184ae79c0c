# Video and livestream backend: verified core

A Dafny model of the parts of the backend that hold real state machines, arithmetic and parsing, with proofs of what
they promise over every input, every run and every interleaving.

- **Livestream reconnects** (`Livestream`, `LivestreamAccounting`, `LivestreamRecordings`, `LivestreamHandlers`,
  `LivestreamRuns`, `LivestreamTimers`, `LivestreamRaces`, `LivestreamLosses`, `LivestreamService`). SRS webhooks, a
  grace timer per stream key, the mutex-guarded `pending` map and the reconciler share `is_live` and the recordings.
  The protocol is a state machine at two granularities: single lock sections and row writes in any interleaving, and
  whole handlers. `LivestreamService` is the use case on the heap; each of its methods is proved to be one step or one
  handler.
- **View counting** (`Views`, `ViewSync`, `ViewBatch`, `ViewRepo`). Redis counters with 60 s deduplication, daily
  trending buckets that expire, and batch sync to Postgres by interleaved workers.
- **Recommendations** (`Factorization`, `Trainer`, `MatrixFactorization`, `Recommender`). Gradient descent on id-keyed
  vectors as the reference, the two in-place trainers proved against it, the published model, and the ranked feed.
- **WebVTT** (`Text`, `Digits`, `Vtt`, `VttPrinter`, `VttCrlf`). The parser of `vtt_parser.go` against a one-pass line
  reader, a canonical printer, and the round trips. The format is that of sections 4.1 and 6.3 of W3C WebVTT, read
  leniently.
- **Feeds** (`Pages`, `Ranking`). Page arithmetic, and re-ranking of trending ids and reels.
- **Event hubs** (`Hubs`, `HubServices`). One state machine for the three hubs, proved equal to a family of
  independent bounded queues, and the three hub classes as its steps.
- **Comments** (`Comments`). The parent check, the forest it maintains, and what the counting queries add up to.

`dafny verify dfyconfig.toml` checks the whole project.

## Where code and comments disagree

The model follows the code.

- `categoryBoost` is said to put preferred videos first regardless of view count (recommendation.go:46-53). With a
  trained model it does so only within ten million views: `Recommender.PreferredOutranksIff`,
  `Recommender.BoostCanLose`.
- `finalizeStreamEnd` is said to run only when no reconnect arrived (livestream.go:213-224). A callback that has fired
  but not locked can end a newer grace period: `LivestreamLosses.StaleCallbackEndsNewGrace`;
  `LivestreamTimers.EndsEarlyIff` says exactly when.
- A grace period is said to end the stream when no publish arrives (livestream.go:187-193). Since the timer is created
  before the lock is taken, its callback can come before its entry, which then has no timer and keeps the ended stream
  live: `LivestreamLosses.EntryCanLoseItsTimer`, `LivestreamLosses.StuckStaysLive`; `LivestreamTimers.EndsIff` says
  exactly when a grace period can still end.
- A late row write of a finalize can put a published stream offline, and so can a late webhook and a reconcile pass,
  which is meant to correct only rows that nothing streams to: `LivestreamLosses.PublishedCanEndOffline`,
  `LivestreamLosses.LateReportCanEndPublished`, `LivestreamLosses.PassCanEndPublished`;
  `LivestreamRaces.LiveIffNoLateWrite` says exactly when the row is safe.
- The reconciler is said to repair any row stuck live (livestream.go:342-348). It repairs exactly those that the
  bounded listing returns: `LivestreamHandlers.ReconcileExact`, `LivestreamHandlers.CrowdStarves`.
- Replies are described as answers to top-level comments (comment repository, lines 66-69 and 139-140), but a reply to
  a reply is accepted: `Comments.ShownIsAllIff`, `Comments.NestedReplyNotShown`.
- A bucket is said to outlive a week "a bit" (view.go:18-21); exactly nine days are safe: `Views.WindowExactIff`.

## Modelling assumptions

- SRS is a set of published keys. In whole handlers it changes together with the webhook, except that an unpublish
  webhook may be lost; at the finest granularity the end of a stream and the handling of its webhook are separate
  steps, in any order with later publishes. That ends of streams are reported only for live rows is assumed where rows
  are compared with SRS (`LivestreamHandlers.FromSrs`), and nowhere else. Reconcile passes come one after the other.
- Database and Redis commands succeed unless a member says otherwise. The clock, random draws, new UUIDs, the order in
  which the database returns rows and the verdict of the finiteness check are parameters.
- At the finest granularity a webhook's or finalize's read and write of one `livestreams` row are a single step; a
  reconcile pass reads its rows in one step and writes each in its own.
- `float64` is `real`. Times are integers; days are UTC days.
- Comment rows are ordered by insertion, which is the order of `created_at` when no two rows share a timestamp.
- Go maps with object values are Dafny maps; channels are objects whose buffer is a sequence; a panic is a result.
- The closure that `Subscribe` returns is the method `Unsubscribe`, called with the key and channel it captured.

## Model

| member | source | states |
|---|---|---|
| `LivestreamAccounting.EveryEventAccountedOnce` | internal/usecase/livestream/livestream.go:139-287 | Lock-section granularity, every interleaving, stale timer callbacks and reconcile passes included: each accepted unpublish is exactly one of pending, cancelled by a reconnect, replaced by a newer unpublish, or consumed by one finalize; each timer is running, waiting for the lock, stopped or done; each on_dvr event is stashed, held by a finalize, discarded, overwritten, processed or failed, exactly once, so none is processed twice |
| `LivestreamRecordings.RecordingSharesFate` | internal/usecase/livestream/livestream.go:139-287 | The same runs: a recording stashed in an entry was overwritten by a later on_dvr for the same entry, or is still stashed in it, or was discarded because that entry was cancelled or replaced, or that entry was consumed by a finalize, which holds the recording, has processed it or has failed |
| `LivestreamAccounting.StepKeepsAccounted` | internal/usecase/livestream/livestream.go:139-243 | Every single lock section, row write or environment event keeps these books balanced for all unpublishes, timers and recordings at once |
| `LivestreamRecordings.StepKeepsFate` | internal/usecase/livestream/livestream.go:139-287 | Every single step keeps every stashed recording tied to the fate of its entry |
| `LivestreamAccounting.InsertBalanced` | internal/usecase/livestream/livestream.go:203-208 | The insert lock section, whether or not it replaces an entry, keeps the tallies of every unpublish, timer and recording balanced |
| `LivestreamAccounting.AdmitBalanced` | internal/usecase/livestream/livestream.go:139-146 | The publish lock section keeps all tallies balanced, also when the timer it stops has already fired |
| `LivestreamAccounting.TakeBalanced` | internal/usecase/livestream/livestream.go:218-224 | The finalize lock section keeps all tallies balanced, whichever timer and entry meet in it |
| `LivestreamAccounting.DvrBalanced` | internal/usecase/livestream/livestream.go:270-287 | An on_dvr event keeps all tallies balanced and adds exactly one recording to them |
| `LivestreamHandlers.ReachableRowsAgree` | internal/usecase/livestream/livestream.go:135-243 | Whole handlers, atomic with the change at SRS; unpublish webhooks may be lost, and may be repeated for a row that is still live: in every reachable state each published key's row is live, each key in grace is live and not published, and no handler is halfway through |
| `LivestreamHandlers.HandlerKeepsInv` | internal/usecase/livestream/livestream.go:135-388 | Every handler, reconcile passes included, keeps the full invariant: rows agree with SRS and with `pending`, pending keys and running timers correspond one to one, the history is well timed |
| `LivestreamHandlers.HandlerKeepsTimely` | internal/usecase/livestream/livestream.go:135-388 | Every handler for any key at any time, a second unpublish during a grace period included, keeps timers and history in order |
| `LivestreamHandlers.UnpublishKeepsRowsIff` | internal/usecase/livestream/livestream.go:194-211 | An unpublish keeps the rows in agreement if and only if its key is unknown or its row live |
| `LivestreamHandlers.FinalizedOnlyAfterGrace` | internal/usecase/livestream/livestream.go:139-224 | Whole handlers in any order for any keys: each pending key has exactly one running timer, also after repeated unpublishes, and no other timer runs; every finalize in the history comes at least a grace period after the key's latest event, which was an unpublish |
| `LivestreamHandlers.WellTimedMeans` | internal/usecase/livestream/livestream.go:194-224 | The same on positions of the history: before each finalize there is an unpublish of that key, a full grace period earlier, with no event of the key (so no accepted publish) in between |
| `LivestreamHandlers.UnpublishStartsGrace` | internal/usecase/livestream/livestream.go:194-211 | An unpublish of a known key leaves the row as it is and opens a grace period with a fresh timer; the timer of a grace period already running is stopped and its entry replaced |
| `LivestreamHandlers.ExpireFinalizes` | internal/usecase/livestream/livestream.go:217-238 | An expiring timer finds the entry of its own unpublish, removes it and takes the row offline |
| `LivestreamHandlers.ReconcileExact` | internal/usecase/livestream/livestream.go:353-388 | One pass leaves live exactly the published keys, the keys in grace and the stale rows that were not listed; so live equals published plus in-grace if and only if `ListActive` returned every stale row |
| `LivestreamHandlers.ReconcileWithinLimit` | internal/usecase/livestream/livestream.go:340-388 | With at most 1000 live rows one pass makes the live rows exactly published plus in-grace |
| `LivestreamHandlers.ReconcileStarves` | internal/usecase/livestream/livestream.go:337-388 | Beyond 1000 live rows a pass changes nothing and leaves a stale row live whenever the rows listed are all streaming or in grace |
| `LivestreamHandlers.CrowdStarves` | internal/usecase/livestream/livestream.go:337-388 | An initial state with 1000 watched streams and one stale row, and a listing of it, on which the pass does exactly that |
| `LivestreamRuns.HandlerIsRun` | internal/usecase/livestream/livestream.go:135-388 | Each whole handler, the reconcile pass included, is a run of the lock-section machine with the same final state |
| `LivestreamRuns.HandlersAreRun` | internal/usecase/livestream/livestream.go:135-388 | Every run of whole handlers is a run of lock sections |
| `LivestreamRuns.HandlersAccountedOnce` | internal/usecase/livestream/livestream.go:135-388 | So after any whole handlers every event is accounted for once and every stashed recording shares the fate of its entry |
| `LivestreamRaces.LiveIffNoLateWrite` | internal/usecase/livestream/livestream.go:194-388 | Lock-section granularity, every reachable state: while SRS keeps receiving a stream whose row is live, the row stays live in every interleaving if and only if no unpublish webhook of an earlier session is still to be handled, no finalize of its key is between its lock section and its row write, and no reconcile pass that missed the key at SRS has yet to list it, has it listed or is about to write it |
| `LivestreamRaces.CalmStaysLive` | internal/usecase/livestream/livestream.go:139-388 | A settled stream without late writes stays so through every run in which SRS keeps receiving it |
| `LivestreamLosses.PublishedCanEndOffline` | internal/usecase/livestream/livestream.go:139-238 | A run, for any row and grace period, that ends with the stream published and its row offline, which no reconcile pass repairs: atomic handlers are needed for the liveness property |
| `LivestreamLosses.PassCanEndPublished` | internal/usecase/livestream/livestream.go:353-388 | From every initial state and for every row not published: a run in which a pass asks SRS, the stream is published, and some continuation of the pass takes the published row offline, with no finalize involved |
| `LivestreamLosses.LateReportCanEndPublished` | internal/usecase/livestream/livestream.go:194-243 | From every initial state and for every row: a run in which a stream ends and is published again before its webhook is handled, after which some interleaving takes the running stream offline, with no finalize and no pass under way |
| `LivestreamLosses.StaleCallbackEndsNewGrace` | internal/usecase/livestream/livestream.go:139-224 | A run in which a callback that fired before `Timer.Stop` finalizes a newer grace period the moment it starts: the timing property fails at lock-section granularity |
| `LivestreamTimers.OwnCallbackIsOnTime` | internal/usecase/livestream/livestream.go:194-224 | Every interleaving: a callback that meets the entry of its own unpublish does so a full grace period after it |
| `LivestreamTimers.EndsEarlyIff` | internal/usecase/livestream/livestream.go:139-224 | Every reachable state: while nothing new is reported about a pending key, some interleaving finalizes it before its grace period is over if and only if another timer of the key has fired, or is due before then |
| `LivestreamTimers.EndsIff` | internal/usecase/livestream/livestream.go:194-224 | Every reachable state: while nothing new is reported about a pending key, some interleaving finalizes it if and only if a timer of the key is running or has fired |
| `LivestreamLosses.EntryCanLoseItsTimer` | internal/usecase/livestream/livestream.go:199-208 | From every initial state and for every row: a run in which the timer, created before the lock, fires and finds nothing before the entry is inserted; the ended stream is then live, in grace, and can never be finalized without new reports |
| `LivestreamLosses.StuckStaysLive` | internal/usecase/livestream/livestream.go:353-388 | Such a row stays live through every run without new reports about its key, any number of reconcile passes included |
| `LivestreamService.UseCase.constructor` | internal/usecase/livestream/livestream.go:52-64 | A service just started or restarted: empty `pending`, any rows, live ones for the streams SRS already receives |
| `LivestreamService.UseCase.AdmitLocked` | internal/usecase/livestream/livestream.go:139-146 | The publish lock section on the heap: the entry is removed, its timer stopped, no row changes, and the protocol takes exactly its admit step |
| `LivestreamService.UseCase.MarkLive` | internal/usecase/livestream/livestream.go:148-164 | Outside the lock: an unknown key is refused, a known row becomes live from now on and no other row changes, and the protocol takes its go-live step |
| `LivestreamService.UseCase.ArmTimer` | internal/usecase/livestream/livestream.go:195-201 | An unknown key changes nothing; otherwise a new timer with the grace deadline runs |
| `LivestreamService.UseCase.InsertLocked` | internal/usecase/livestream/livestream.go:203-208 | The new entry object, without a recording, replaces an older one, whose timer is stopped; no other entry changes |
| `LivestreamService.UseCase.FireTimer` | internal/usecase/livestream/livestream.go:199-201 | A due timer becomes a callback that waits for the lock |
| `LivestreamService.UseCase.TakeLocked` | internal/usecase/livestream/livestream.go:218-224 | The finalize lock section removes and returns whatever entry the key has; the object is then out of reach of on_dvr |
| `LivestreamService.UseCase.MarkOffline` | internal/usecase/livestream/livestream.go:229-242 | The row goes offline as of now and no other row changes; the recording stashed in the entry is the one handed on, nothing for a missing row |
| `LivestreamService.UseCase.HandleDVRComplete` | internal/usecase/livestream/livestream.go:270-287 | A pending entry gets the new recording, in place of an older one, and no other entry changes; without an entry the recording is handed on, or refused for an unknown key |
| `LivestreamService.UseCase.AuthenticateStreamKey` | internal/usecase/livestream/livestream.go:135-185 | The whole publish handler: it succeeds exactly for pending or known keys, ends a grace period or makes the row live, and the protocol state moves by the publish handler |
| `LivestreamService.UseCase.UnpublishStream` | internal/usecase/livestream/livestream.go:194-211 | The whole unpublish handler, together with the end of the stream it reports: a fresh entry and timer with the grace deadline, an older timer stopped, no row changed; unknown keys are refused |
| `LivestreamService.UseCase.FinalizeStreamEnd` | internal/usecase/livestream/livestream.go:217-243 | The whole expiry: entry and timer go, the row goes offline as of now, the recording of the old entry is returned, and the protocol state moves by the expire handler |
| `LivestreamService.UseCase.InspectLocked` | internal/usecase/livestream/livestream.go:371-379 | One turn of the reconcile loop up to the lock section: the row is stale exactly when SRS did not report its key and the key is not in grace |
| `LivestreamService.UseCase.RepairRow` | internal/usecase/livestream/livestream.go:381-384 | The row as it was listed is written back offline, whatever has happened to it since |
| `LivestreamService.UseCase.ReconcileListed` | internal/usecase/livestream/livestream.go:363-388 | From the listing on, for any earlier SRS answer: exactly the listed rows outside the answer and outside grace go offline as of now, every other row stays as it is |
| `LivestreamService.UseCase.ReconcileLiveStreams` | internal/usecase/livestream/livestream.go:353-388 | A whole uninterrupted pass is the reconcile handler of the protocol |
| `Views.RecordedViewsAreSpaced` | internal/repo/persistent/view/view.go:54-74 | Every run: two counted views of one (video, fingerprint) are at least 60 s apart |
| `Views.WindowBound` | internal/repo/persistent/view/view.go:54-74 | Every run: a closed window of T ms holds at most floor(T / 60 s) + 1 counted views of one viewer |
| `Views.DedupCovers` | internal/repo/persistent/view/view.go:54-67 | A viewer's dedup key outlives each view counted for it by sixty seconds |
| `Views.CountedIff` | internal/repo/persistent/view/view.go:54-67 | Every ordered run: a visit is counted if and only if every counted view of the same viewer is at least 60,000 ms before it; otherwise the counted views stay as they were |
| `Views.CountersExact` | internal/repo/persistent/view/view.go:69-74 | Every run: the pending counter of a video is the number of its counted views |
| `Views.TrendingWindowExact` | internal/repo/persistent/view/view.go:76-116 | Every run, every query time: over the last k <= 9 UTC days the union of buckets scores each video by exactly its counted views of those days |
| `Views.WindowExactIff` | internal/repo/persistent/view/view.go:18-29 | A k-day window is exact in all runs at all times if and only if k <= 9 |
| `Views.TenDaysTooMany` | internal/repo/persistent/view/view.go:18-29 | For each k > 9 a one-view run whose bucket has expired when the window still covers it |
| `Views.RunKeepsBuckets` | internal/repo/persistent/view/view.go:76-82 | Every run: each bucket holds the counts of its day and lives nine days past the last of them |
| `Views.OneDayPath` | internal/repo/persistent/view/view.go:98-111 | The one-day path reads what a union of one bucket would hold |
| `ViewSync.ViewsConserved` | internal/repo/persistent/view/view.go:69-204 | Any number of sync workers, every interleaving of single commands with new views: counted views (with those momentarily doubled between UPDATE and DECRBY) equal the growth of committed views plus the Redis counter plus open increments plus losses, and the loss term is absent if and only if no rollback held increments of the video and no UPDATE missed its row |
| `ViewSync.StepConserves` | internal/repo/persistent/view/view.go:132-204 | Every single command keeps the conservation equation of every video |
| `ViewSync.CountedAreRecorded` | internal/repo/persistent/view/view.go:69-74 | Every run: the count of recorded views grows by exactly one for each view |
| `ViewSync.DisplayedTotal` | internal/usecase/video/video.go:107-109 | Without losses and between statements the displayed total never exceeds the true one, and equals it if and only if no open transaction holds views of the video |
| `ViewSync.SingleWorkerNeverNegative` | internal/repo/persistent/view/view.go:132-204 | With one worker no interleaving makes a Redis counter negative |
| `ViewSync.TwoWorkersOverdraw` | internal/repo/persistent/view/view.go:132-204 | With two workers or more a run credits one view twice and leaves the counter at -1 |
| `ViewSync.NeverNegativeIff` | internal/repo/persistent/view/view.go:132-204 | No interleaving ever makes a Redis counter negative if and only if there is at most one worker |
| `ViewRepo.Repo.RecordView` | internal/repo/persistent/view/view.go:44-85 | One visit of the run model: it is counted if and only if the viewer's counted views are at least 60,000 ms old, a counted one adds exactly one to the pending counter, which is returned, and dedup keys and buckets stay those of all visits so far; without Redis it adds one to the row if there is one |
| `ViewRepo.Repo.GetPendingViews` | internal/repo/persistent/view/view.go:132-164 | The scan returns exactly the positive counters |
| `ViewRepo.Repo.SyncBatch` | internal/repo/persistent/view/view.go:167-204 | Redis loses exactly the videos whose statements ran, whether the transaction then commits, fails to commit or stops at a failing UPDATE; rows gain the batch only on commit, missing rows never |
| `ViewBatch.SubtractedIs` | internal/repo/persistent/view/view.go:178-198 | Going through videos one after the other takes exactly their pending views out of the counters |
| `ViewBatch.BatchIsRun` | internal/repo/persistent/view/view.go:167-204 | A batch is a run of the interleaved machine, Begin, an UPDATE and a DECRBY for each video, Commit or Rollback, with the counters and rows that `SyncBatch` leaves; so conservation holds of it |
| `ViewBatch.SyncDrains` | internal/repo/persistent/view/view.go:132-204 | An undisturbed pass over a scan that finds every counter moves each positive counter into the row: nothing is left pending and the displayed total is unchanged |
| `ViewRepo.Repo.TrendingScores` | internal/repo/persistent/view/view.go:96-111 | The buckets are summed per video, or the single bucket is used for one day |
| `ViewRepo.Repo.GetTrendingVideoIDs` | internal/repo/persistent/view/view.go:91-116 | The first `limit` members of the union from its high end: non-increasing score, equal scores in descending order of ids, all of them when fewer than `limit`; up to nine days back the scores are exactly the views counted on those days; nothing for non-positive days or limit |
| `ViewRepo.Highest` | internal/repo/persistent/view/view.go:112-115 | ZREVRANGE: the first `limit` members by score and then by member, both descending |
| `ViewRepo.TopUnique` | internal/repo/persistent/view/view.go:112-115 | That listing is determined by the scores: two listings of one union are equal |
| `Factorization.UpdatedProduct` | internal/usecase/recommendation/recommendation.go:149-156 | The identity for any error e, with the coefficients 1 - gl and ge named |
| `Factorization.LearnMovesEntries` | internal/usecase/recommendation/recommendation.go:131-156 | One interaction: with e the rating minus the prediction, or the nearer bound where that is out of bounds, each entry x beside y becomes x + g (e y - l x), in both rows from their old values, and no other row changes |
| `Factorization.LearnMovesOnePair` | internal/usecase/recommendation/recommendation.go:131-156 | The same interaction: the new prediction is ((1-gl)^2+(ge)^2) P.Q + (1-gl) ge (norm(P)^2 + norm(Q)^2) over the old rows |
| `Factorization.StepTowardsRating` | internal/usecase/recommendation/recommendation.go:131-156 | Without regularization and within the clamp an error d becomes d (1 - g n - g^2 d c), for the prediction c and the squared lengths n; so the step brings the prediction nearer to the rating if and only if that factor is between -1 and 1 |
| `Factorization.LearnAllConcat` | internal/usecase/recommendation/recommendation.go:131-157 | Training on a list is training on its parts one after the other |
| `Factorization.EpochsAdd` | internal/usecase/recommendation/recommendation.go:130-158 | Epochs add up, and one of them is one pass over the list |
| `Factorization.DotGrows` | internal/usecase/recommendation/recommendation.go:136-140 | The prediction is the sum of the products of the entries |
| `Factorization.TrainingWithin` | internal/usecase/recommendation/recommendation.go:129-158 | Clamped training keeps every entry within the start bound times growth^(epochs * interactions), for every list, rating and rate |
| `Factorization.GrowthInRange` | internal/usecase/recommendation/recommendation.go:188-198 | For gl <= 1 and l <= 50 the growth factor is 1 - gl + 50 g |
| `Factorization.ServiceBound` | internal/usecase/recommendation/recommendation.go:113-158 | Entries that start within 0.1 stay within 0.1 (1 - gl + 50 g)^(epochs * interactions) |
| `Factorization.Clamp` | internal/usecase/recommendation/recommendation.go:190-198 | The clamped value lies between the bounds and is the value itself when that does, the nearer bound otherwise |
| `Trainer.DotRows` | internal/usecase/recommendation/recommendation.go:136-140 | The prediction loop computes the dot product |
| `Trainer.UpdateRows` | internal/usecase/recommendation/recommendation.go:149-156 | The in-place factor loop over two distinct arrays computes the simultaneous update of both old rows |
| `Trainer.LearnKeyed` | internal/usecase/recommendation/recommendation.go:131-156 | One interaction on the heap is one step of the id-keyed descent: with distinct arrays no other row moves |
| `Trainer.TrainRows` | internal/usecase/recommendation/matrix_factorization.go:86-111 | The epoch loop over vectors in maps is the id-keyed descent over all epochs |
| `Trainer.TrainIndexed` | internal/usecase/recommendation/recommendation.go:129-158 | The epoch loop over P and Q, with every row reached through the index maps, is the id-keyed descent over all epochs |
| `Trainer.IndexIds` | internal/usecase/recommendation/recommendation.go:95-106 | The index maps are bijections onto 0..n-1 with exactly the users and videos of the interactions as keys |
| `Trainer.UserOccurs` | internal/usecase/recommendation/recommendation.go:99-106 | No id is indexed that is not the user of an interaction (likewise `VideoOccurs`) |
| `Trainer.InitRows` | internal/usecase/recommendation/recommendation.go:112-127 | Fresh, pairwise distinct rows whose entries are a tenth of the draws, so within 0.1 |
| `Trainer.TrainMatrices` | internal/usecase/recommendation/recommendation.go:94-179 | Indexing, training P and Q through the index maps and keying them by id gives each id the vector of the id-keyed descent, with exactly the pass's ids as keys and distinct rows of length k |
| `MatrixFactorization.Model.constructor` | internal/usecase/recommendation/matrix_factorization.go:29-39 | An empty model with the given parameters |
| `MatrixFactorization.Model.InitVector` | internal/usecase/recommendation/matrix_factorization.go:42-49 | A fresh vector whose entries are a tenth of the draws, so within 0.1 |
| `MatrixFactorization.Model.Predict` | internal/usecase/recommendation/matrix_factorization.go:52-68 | The dot product of the two vectors, 0 for an unseen user or video |
| `MatrixFactorization.Model.EnsureVectors` | internal/usecase/recommendation/matrix_factorization.go:76-83 | Exactly the unseen ids get fresh small vectors; known ones keep theirs |
| `MatrixFactorization.Model.Train` | internal/usecase/recommendation/matrix_factorization.go:71-112 | The vectors afterwards are those of the unclamped id-keyed descent from the old vectors and small new ones, every vector still an array of its own |
| `Recommender.UseCase.constructor` | internal/usecase/recommendation/recommendation.go:34-44 | Nothing served yet; 10 factors, rates 0.01 and 0.02, 50 epochs |
| `Recommender.UseCase.Train` | internal/usecase/recommendation/recommendation.go:80-186 | Over any sequence of failed, empty, diverged and successful passes: both vector maps come from the latest pass that counts, with exactly its users and videos as keys, distinct arrays of length `factors`, and no entry beyond 0.1 * 1.4998^(50 * interactions of that pass); a trained pass publishes the descent from small values, failed and diverged passes keep what is served, empty ones withdraw it |
| `Recommender.PublishedWithin` | internal/usecase/recommendation/recommendation.go:34-44 | The bound behind that: the descent with the service's own rates and 50 epochs, from entries within 0.1 |
| `Recommender.UseCase.ScoreOne` | internal/usecase/recommendation/recommendation.go:237-285 | The score of one video in all three paths, never indexing out of range |
| `Recommender.UseCase.GetPersonalizedFeed` | internal/usecase/recommendation/recommendation.go:214-291 | One page of a ranking of all fetched videos by score, with the totals of the path taken |
| `Recommender.SortByScore` | internal/usecase/recommendation/recommendation.go:286-288 | A permutation in non-increasing score, ties in any order |
| `Recommender.FeedIsPermutation` | internal/usecase/recommendation/recommendation.go:266-288 | The feed holds every fetched video exactly as often as it was fetched, each with its own score, in non-increasing order |
| `Recommender.FeedPagesPartition` | internal/usecase/recommendation/recommendation.go:290-313 | For limit >= 1 the pages 1..TotalPages of the trained feed concatenate to the whole ranking and later pages are empty |
| `Recommender.KnownUserScores` | internal/usecase/recommendation/recommendation.go:259-283 | A known user's score of a video is a tenth of its views plus the product of the two vectors, or the views alone for a video the model lacks; preferences do not count |
| `Recommender.LargerProductComesFirst` | internal/usecase/recommendation/recommendation.go:259-288 | In a known user's feed, of two modelled videos with equal views the one with the larger product comes first, and a modelled one comes before one the model lacks exactly as its product makes up for the views |
| `Recommender.PreferredOutranksIff` | internal/usecase/recommendation/recommendation.go:46-53 | In a cold start a preferred video outranks another if and only if there is no model at all or the other has fewer than ten million more views |
| `Recommender.SamePreferenceIff` | internal/usecase/recommendation/recommendation.go:237-285 | In a cold start videos of equal preference rank by views with a model, and are equal without one |
| `Recommender.PreferredComeFirst` | internal/usecase/recommendation/recommendation.go:237-285 | In both cold-start paths every preferred video precedes every other one with fewer than 10,000,000 views |
| `Recommender.BoostCanLose` | internal/usecase/recommendation/recommendation.go:46-53 | With a model, an unviewed preferred video ranks below another one beyond ten million views, against the comment that view counts do not matter |
| `Pages.TotalPages` | internal/mapper/video.go:93-97 | The least number of pages that hold all items; 0 for a non-positive limit |
| `Pages.PagesPartition` | internal/usecase/recommendation/recommendation.go:297-313 | For limit >= 1 pages 1..TotalPages concatenate to the list, all but the last are full, later ones are empty |
| `Pages.PagesOutOfRange` | internal/usecase/recommendation/recommendation.go:297-305 | A page before the first is the first one; without a limit every page is the whole list |
| `Pages.SliceIsPaginate` | internal/usecase/video/video.go:171-181 | From page 1 on the trending cut equals `paginate` and is never out of range |
| `Pages.SliceFailsIff` | internal/usecase/video/video.go:171-181 | Exactly which page and limit make the slice bounds panic |
| `Ranking.IndexById` | internal/usecase/video/video.go:159-162 | The map holds exactly the wanted ids with their rows |
| `Ranking.Rerank` | internal/usecase/video/video.go:159-169 | For any row order the two loops compute the reference ranking |
| `Ranking.GetTrending` | internal/usecase/video/video.go:139-182 | Recency fallback without ranked ids, an error when the fetch fails, else the requested page of the reference ranking with its totals |
| `Ranking.GetReelsFeed` | internal/usecase/video/video.go:189-250 | Two fetches and four loops compute one page of the reels-only ranking; recency fallback when the first fetch fails or finds no reel, an error when the second one fails |
| `Ranking.RankedIsFilter` | internal/usecase/video/video.go:154-169 | The reference ranking is one order-preserving filter of the ranked ids: increasing positions, exactly the wanted ones |
| `Ranking.PageIsPublic` | internal/repo/persistent/video/video.go:79-81 | Every item of a trending or reels page is complete and public, and a reel where only reels are asked for |
| `Ranking.TrendingPagesPartition` | internal/usecase/video/video.go:171-181 | For limit >= 1 the trending pages concatenate to exactly that list and later pages are empty |
| `Vtt.SplitNonEmptyLines` | internal/usecase/subtitle/vtt_parser.go:62-71 | The trimmed non-blank lines, in order |
| `Vtt.ParseOneBlock` | internal/usecase/subtitle/vtt_parser.go:27-57 | One turn of the block loop contributes nothing, one cue or the error |
| `Vtt.ParseDocument` | internal/usecase/subtitle/vtt_parser.go:22-60 | The block loop computes the composition of passes, stopping at the first error |
| `Vtt.ParserIsLineReader` | internal/usecase/subtitle/vtt_parser.go:22-71 | For every document the four passes (CR removal, trim, blank-line split, line split) compute exactly a one-pass line reader |
| `Vtt.ParseConcat` | internal/usecase/subtitle/vtt_parser.go:22-60 | For all documents, carriage returns or not: parse(a + blank line + b) is the concatenation of both parses, the first error winning |
| `Vtt.CommaIsPoint` | internal/usecase/subtitle/vtt_parser.go:100-101 | For every text, a comma in a timestamp reads as a point |
| `Vtt.HeaderAnyCase` | internal/usecase/subtitle/vtt_parser.go:33-36 | A block whose first line starts with the header word in any case contributes nothing, whatever follows in it |
| `Vtt.NoteIsInvisible` | internal/usecase/subtitle/vtt_parser.go:38-48 | For all documents: text without an arrow between two of them, such as a note, changes nothing |
| `Digits.ParseNatIff` | internal/usecase/subtitle/vtt_parser.go:109-122 | A field is read as a number if and only if it is one or more digits |
| `Digits.PointMoves` | internal/usecase/subtitle/vtt_parser.go:128-131 | Moving the decimal point of the seconds one digit to the right multiplies them by ten, for any digits |
| `Text.JoinIsReplace` | internal/usecase/subtitle/vtt_parser.go:55 | Joining the lines of a text puts exactly one space where each line ended |
| `Vtt.CrlfSameBlocksIff` | internal/usecase/subtitle/vtt_parser.go:23-28 | Converting every LF to CRLF keeps the blocks the parser sees if and only if no line that is a lone CR stands between text lines of one block |
| `Vtt.CrlfInvariant` | internal/usecase/subtitle/vtt_parser.go:22-60 | Under that condition the parse result is unchanged |
| `Vtt.CrlfInvariantWithoutCr` | internal/usecase/subtitle/vtt_parser.go:22-60 | In particular for every document without carriage returns |
| `VttCrlf.SplitBlockIff` | internal/usecase/subtitle/vtt_parser.go:27-57 | Two adjacent pieces of text read as one block mean the same as two blocks if and only if: after a header the second holds no cue; a first piece with a timing line is in error at it; otherwise the second is not a header with a timing line |
| `VttCrlf.SplitInDocumentIff` | internal/usecase/subtitle/vtt_parser.go:27-57 | Among blocks that parse, merging two of them keeps the cues of the document under exactly that condition |
| `VttCrlf.CrlfOneSplitIff` | internal/usecase/subtitle/vtt_parser.go:22-60 | A document of two blocks that only a lone CR separates keeps its result in CRLF form under exactly that condition |
| `VttPrinter.CrlfTwiceDropsBody` | internal/usecase/subtitle/vtt_parser.go:22-36 | For any one-line body: a CRLF document means its body, and nothing once it is converted again |
| `VttCrlf.CrlfTwiceLosesCue` | internal/usecase/subtitle/vtt_parser.go:22-60 | A CRLF document with a header and one cue parses to the cue, and to nothing once every LF has become CRLF again |
| `VttPrinter.TimestampRoundTrip` | internal/usecase/subtitle/vtt_parser.go:100-134 | Every millisecond timestamp, with unbounded hours, reads back exactly |
| `VttPrinter.TimingLineRoundTrip` | internal/usecase/subtitle/vtt_parser.go:74-96 | A printed timing line reads back as its two times whatever cue settings follow |
| `VttPrinter.CueParses` | internal/usecase/subtitle/vtt_parser.go:22-60 | A printed cue, with or without identifier and with any number of text lines, parses to its times and its lines with one space between neighbours |
| `VttPrinter.PrintParseRoundTrip` | internal/usecase/subtitle/vtt_parser.go:22-134 | Parsing the printed form of any cue list, multi-line texts included, returns the same cues in order |
| `VttPrinter.PrintParseRoundTripCrlf` | internal/usecase/subtitle/vtt_parser.go:22-134 | So does parsing its CRLF form |
| `VttPrinter.DvrDurationRoundTrip` | internal/usecase/livestream/livestream.go:247-259 | For every elapsed time, the duration text read by `parseTimestamp` is the exact whole number of seconds, with unbounded hours |
| `VttPrinter.DvrDurationShape` | internal/usecase/livestream/livestream.go:247-259 | MM:SS below an hour, HH:MM:SS up to a hundred hours, 00:00 for a stream that never started |
| `Hubs.HubIsQueues` | internal/events/chat_hub.go:37-81 | Every run of every hub shows each subscriber precisely its own bounded queue, which knows nothing of rooms, other channels or maps |
| `Hubs.TidyRun` | internal/events/chat_hub.go:40-56 | Every reachable state: registered channels are open and filed under their own key, and no empty room or user entry remains |
| `Hubs.RegisteredChannelsOpen` | internal/events/notification_hub.go:21-65 | Every registered channel is open, under its key and within capacity |
| `Hubs.SubscriberGetsItsMessages` | internal/events/notification_hub.go:49-65 | Every run: received plus buffered messages are, in order, exactly those sent to the key while the subscriber was registered and its buffer not full |
| `Hubs.RunPanicsIff` | internal/events/hub.go:31-36 | A run panics if and only if some channel is unsubscribed twice in a hub that closes without looking (video and chat; never notifications) |
| `Hubs.SecondUnsubscribe` | internal/events/notification_hub.go:28-43 | After a channel is closed, unsubscribing again panics in the video and chat hubs and changes nothing in the notification hub |
| `HubServices.Pipe.TrySend` | internal/events/chat_hub.go:61-69 | A non-blocking send: the message is appended, or dropped when the buffer is full |
| `HubServices.Pipe.Receive` | internal/events/hub.go:26 | A reader takes the oldest message |
| `HubServices.ChatHub.Subscribe` | internal/events/chat_hub.go:37-45 | A fresh open channel of capacity 20 joins its room: the subscribe step |
| `HubServices.ChatHub.Unsubscribe` | internal/events/chat_hub.go:47-57 | The channel leaves its room, an empty room goes too, the channel is closed; false exactly where the close panics |
| `HubServices.ChatHub.Broadcast` | internal/events/chat_hub.go:72-81 | The send loop over the room, in any order, is one send step; it never meets a closed channel |
| `HubServices.Hub.Subscribe` | internal/events/hub.go:25-29 | A fresh open channel of capacity 10 joins the clients |
| `HubServices.Hub.Unsubscribe` | internal/events/hub.go:31-36 | The client leaves and its channel is closed; false exactly where the close panics |
| `HubServices.Hub.Broadcast` | internal/events/hub.go:41-52 | The send loop over all clients is one send step and never sends on a closed channel |
| `HubServices.NotificationHub.Subscribe` | internal/events/notification_hub.go:21-26 | A fresh channel of capacity 16 is appended to the user's slice |
| `HubServices.NotificationHub.Unsubscribe` | internal/events/notification_hub.go:28-43 | Search, splice, close and drop of an empty slice are one unsubscribe step, which never panics |
| `HubServices.NotificationHub.SendDirect` | internal/events/notification_hub.go:49-65 | The send loop over the slice is one send step |
| `HubServices.Unlist` | internal/events/notification_hub.go:32-42 | Splicing removes exactly the channel from the user's room, and the room once it is empty |
| `Comments.RunIsForest` | internal/usecase/comment/comment.go:57-74 | Every reachable table is a forest |
| `Comments.ForestIsReachable` | internal/usecase/comment/comment.go:57-74 | Every forest is reachable, so the invariant is exact |
| `Comments.ForestMeans` | internal/usecase/comment/comment.go:58-63 | A forest, on positions: ids are distinct and every reply comes after its parent, on the same video |
| `Comments.ChainsEndAtTop` | internal/usecase/comment/comment.go:57-74 | Every reachable table: each parent chain repeats no row and ends, in fewer steps than there are rows, at a top-level comment of the same video |
| `Comments.RootIff` | internal/usecase/comment/comment.go:57-74 | A comment belongs to a thread if and only if its chain leads to the thread's top-level comment |
| `Comments.AllIsTopPlusReplies` | internal/repo/persistent/comment/comment.go:70-137 | Every reachable table: the count of all comments is the top-level count plus the direct reply counts of all the video's comments |
| `Comments.AllIsSumOfThreads` | internal/repo/persistent/comment/comment.go:70-137 | Every reachable table: the count of all comments is the sum of the thread sizes of the video's top-level comments |
| `Comments.ShownIsAllIff` | internal/repo/persistent/comment/comment.go:66-137 | Top-level comments plus their displayed reply counts never exceed the header total, and equal it if and only if no reply answers a reply |
| `Comments.NestedReplyNotShown` | internal/usecase/comment/comment.go:57-63 | A reply to a reply is accepted, which makes the two totals differ |
| `Comments.CommentPages` | internal/usecase/comment/comment.go:76-91 | For limit >= 1 the pages of the listing concatenate to all top-level comments, newest first, and their numbers add up to the header total exactly as above |
| `Comments.SelectIsFilter` | internal/repo/persistent/comment/comment.go:70-113 | Selection keeps exactly the matching rows, each once, in the order of the table |
| `Comments.RepliesOldestFirst` | internal/repo/persistent/comment/comment.go:141-183 | Every window of the replies to a comment is a window of exactly the rows whose parent it is, in the order of insertion |
| `Comments.CommentsNewestFirst` | internal/repo/persistent/comment/comment.go:70-117 | Every window of the comments on a video is a window of exactly its rows without a parent, latest first, each with the number of rows whose parent it is |
| `Comments.WindowIsPage` | internal/usecase/comment/comment.go:76-91 | The converted limit and offset give exactly the page for pages and limits from 1 on; negative offsets are refused by the database and a limit of 0 shows nothing |
| `Comments.Repo.Store` | internal/repo/persistent/comment/comment.go:23-39 | The row is appended, or nothing happens when its id is taken |
| `Comments.Repo.ListByVideoID` | internal/repo/persistent/comment/comment.go:70-117 | The window of top-level rows, newest first, each with its direct replies counted, and their total |
| `Comments.Repo.ListRepliesByParentID` | internal/repo/persistent/comment/comment.go:141-183 | The window of direct replies, oldest first, and their total |
| `Comments.UseCase.CreateComment` | internal/usecase/comment/comment.go:57-74 | Refused as an invalid parent exactly when the named parent is missing or on another video; otherwise the comment is appended; the table stays the result of the requests |
| `Comments.UseCase.ListVideoComments` | internal/usecase/comment/comment.go:76-91 | For every page and limit: an error where the converted numbers are out of the database's range, else that window of the listing with its total, page count and the total of all comments |
| `Comments.UseCase.ListReplies` | internal/usecase/comment/comment.go:93-103 | For every page and limit: the same error, else that window of the direct replies with its totals |

## Left out

- Float rounding, NaN and infinities; with exact numbers the finiteness check always passes, so the diverged branch is
  a parameter of `Recommender.UseCase.Train`.
- Signed and exponent numerals and 64-bit overflow in `Atoi` and `ParseFloat`; upper-casing of letters beyond ASCII.
- Negative durations in `dvrDuration` (a start time in the future).
- Vtt.CrlfInvariant: for documents with several split blocks it is sufficient only. Exact are the blocks
  (`Vtt.CrlfSameBlocksIff`), each split (`VttCrlf.SplitBlockIff`) and one split in a document that parses; several
  splits can cancel out, or come after the first error.
- Recommender.SortByScore: an insertion sort stands for `sort.Slice`; only its contract, a sorted permutation, is
  used.
- LivestreamService.UseCase.ReconcileLiveStreams: the uninterrupted pass, SRS answering with what it receives; stale
  answers and interruptions are covered by `ReconcileListed`, `InspectLocked` and `RepairRow`.
- Recommender.FeedPagesPartition: for the trained feed; before any training the page count uses the database total
  while at most 50 rows are fetched, so no partition holds there.
- Database and Redis failures other than a failed fetch, BEGIN, UPDATE or COMMIT, a missing row, a taken comment id
  and a page out of range.
- `ResetStreamKey`, `UpdateStreamInfo` and the admin's `BanStream`, which write rows without touching `pending`.
- `processDVR` beyond handing the recording on: upload, replay row, transcode job.
- `VideoRepo.Update`, whose whole-row write also overwrites `views`.
- The recency listings that trending and reels fall back to, and the likes and saved flags attached to responses.
- `withLikeInfo`, likes, follows, preferences, vocabulary, posts and field-copying mappers: easy toggles and copies.
- HTTP, SQL building, NATS, RabbitMQ, MinIO, JWT, configuration and tracing.
