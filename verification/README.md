# Verified models of the Review Writer API core

Dafny models of five parts of the Review Writer API that carry state or geometry, each with the properties it is
relied on for, proved for every input, every run or every interleaving.

1. **Raster tracing** (`figure_rules.py`). An RGB raster is quantised, encoded in runs row by row, and linked into
   components by a two-cursor sweep over a union-find with path halving; the components become groups of SVG paths.
   Proved: painting the paths gives back the quantised raster, and the groups are exactly the connected components.
   Files `links`, `union_find`, `raster`, `runs`, `tracing`, `svg`, `figure_svg`.
2. **Vector snapshots** (`vector_store.py`, `sqlite_vectors.py`). Publishers with fenced leases, readers with leases,
   jobs with pins, a pruner and the clock, interleaved freely. Proved: no protected file is ever lost, heads move only
   under the current fence and form one unbroken chain, and what is marked ready is complete.
   Files `snapshots`, `vector_model`, `vector_safety`, `vector_theorems`, `vector_store`,
   `vector_delta`, `vector_effects`.
3. **Credit ledger** (`billing.py`). Holds, settlements, releases, the sweep of ended jobs and admin adjustments over an
   append-only ledger. Proved: accounts, holds and ledger always agree, the clamps at zero never act, nothing is charged
   twice, and exactly when a succeeded request can still lose its hold.
   Files `sums`, `ledger`, `ledger_laws`, `ledger_theorems`, `ledger_effects`, `billing`.
4. **Channel admission** (`text_routing.py`). A monitor with three coupled quotas. Proved: no lost wake-up, counters that
   match the open admissions, limits respected at every admission, and rotation over idle channels from the first call
   on. Files `pool`, `pool_laws`, `pool_theorems`, `pool_rotation`, `pool_effects`,
   `text_channel_pool`.
5. **Shared retry budget and cost bounds** (`model_gateway.py`). A walk over retry lineages, a recursive query over their
   trees, counters that survive restarts and sweeps, and a price estimate that must cover the charge. Proved: a lineage is never
   granted more than the two limits, and the hold covers every call that stays within its estimate.
   Files `lineage`, `budget`, `budget_laws`, `budget_theorems`, `budget_verdicts`, `model_gateway`,
   `cost`.

Parts 2 to 5 have the same shape: a datatype for the tables and pure step functions (`vector_model`, `ledger`, `pool`,
`budget`), a class whose methods change its fields the way the source does and are proved equal to those steps
(`vector_store`, `billing`, `text_channel_pool`, `model_gateway`), and theorems about runs of steps. What a single step
answers and moves is stated apart, in the fields of the tables (`vector_effects`, `ledger_effects`, `pool_effects`,
`budget_verdicts`). A database session
with row locks is one step. Money is an integer number of 0.00000001 USD.

Points where the source does not do quite what it says, and the model follows the code:

- **A succeeded request keeps its hold** is false for pictures. `_release_terminal_job_holds` says that a successfully
  metered request is left untouched, but a picture whose cached file is lost is begun again under the same row, and if
  the job then ends, the sweep releases the hold of the attempt that had succeeded, which can never be charged any more
  (`LedgerTheorems.LostPictureLosesItsCharge`, a run from empty books). `LedgerTheorems.StepKeepsMetered` gives the exact condition.
- **Eight levels per channel**, says a comment of the tracer; the quantiser rounds to nine, the last being 255.
- **The hold covers the charge** needs a cached price no higher than the input price. The price table does not enforce
  it; `Cost.CoversAllIffFullyCached` gives the exact condition and `Cost.DearCacheIsNotCovered` a price list without it.

## Model

| member | source | states |
|---|---|---|
| Raster.NearestLevelIsClosest | review_writer_api/figure_rules.py:219-224 | the quantised channel is a level, none is closer, ties go to the brighter one, and levels are fixed points |
| Raster.TraceColorIsExact | review_writer_api/figure_rules.py:208-224 | a pixel is suppressed exactly when all channels are at least 248, or they differ by at most 20 and sum to at least 585; otherwise each channel of the result is the closest level to the same channel of the pixel |
| UnionFind.ShortcutKeepsRoot | review_writer_api/figure_rules.py:250-254 | redirecting an entry to an ancestor, as path halving does, changes the representative of no index |
| UnionFind.LinkMovesTree | review_writer_api/figure_rules.py:256-264 | hanging one root below a smaller one moves exactly the members of its tree and keeps the forest ordered |
| UnionFind.AppendKeepsRoot | review_writer_api/figure_rules.py:284-286 | a new index is its own representative and changes no other |
| UnionFind.Parents.Find | review_writer_api/figure_rules.py:250-254 | terminates on every forest, returns the representative, and changes no representative while it halves paths |
| UnionFind.Parents.Union | review_writer_api/figure_rules.py:256-264 | afterwards exactly the two trees share a representative, the smaller of the two |
| Runs.GapIsBridged | review_writer_api/figure_rules.py:287-288 | two runs of a row that are near but not neighbours have a one-pixel run between them, so looking at the last run only loses no link |
| Runs.Spread | review_writer_api/figure_rules.py:267-289 | every run between two runs of a row takes at least one column |
| Runs.NearIsTouching | review_writer_api/figure_rules.py:287-307 | the one-pixel gap tests on two runs hold exactly when a pixel of one is linked to a pixel of the other |
| Runs.JoinedIsPixelLinked | review_writer_api/figure_rules.py:267-308 | two runs are chained by near runs exactly when their pixels are connected in the raster |
| Runs.OneRunPerPixel | review_writer_api/figure_rules.py:270-289 | no two runs cover one pixel |
| Tracing.UnionKeepsProgress | review_writer_api/figure_rules.py:256-264 | uniting two near runs keeps representatives sound and loses no merge made so far |
| Tracing.NearPairsMerged | review_writer_api/figure_rules.py:266-308 | after the scan any two near runs, consecutive or not, share a representative |
| Tracing.SweepIsComplete | review_writer_api/figure_rules.py:290-308 | runs the cursor has left behind, and runs beyond the break, have no link to the run at hand |
| Tracing.ScanFindsComponents | review_writer_api/figure_rules.py:266-308 | equal representatives are exactly connection by a chain of near runs |
| Tracing.RootIsSmallest | review_writer_api/figure_rules.py:256-264 | a representative is the smallest run index of its component |
| Tracing.Tracer.PushRun | review_writer_api/figure_rules.py:284-289 | the run is appended and merged with its left neighbour when near, and the scan invariant goes on |
| Tracing.Tracer.EncodeRow | review_writer_api/figure_rules.py:267-289 | the row's runs are its maximal stretches of one traceable colour |
| Tracing.Tracer.LinkRun | review_writer_api/figure_rules.py:291-307 | the run is merged with every near run of the row above, and the cursor never has to move back |
| Tracing.Tracer.LinkRow | review_writer_api/figure_rules.py:290-308 | the same for all runs of a row |
| Tracing.Tracer.Scan | review_writer_api/figure_rules.py:266-308 | the runs encode the whole raster and the forest holds its components |
| Svg.RunWinding | review_writer_api/figure_rules.py:316-318 | the commands of a run wind once around each of its pixels and around no other |
| Svg.WindingCounts | review_writer_api/figure_rules.py:316-323 | the winding number of a path at a pixel is the number of its runs that cover it |
| FigureSvg.AddKeepsGroup | review_writer_api/figure_rules.py:316-318 | adding a run to its component keeps one path per colour holding that colour's runs in order |
| FigureSvg.PathOfRun | review_writer_api/figure_rules.py:309-328 | each run's pixels are filled by exactly one path, of its own colour |
| FigureSvg.GroupedCovers | review_writer_api/figure_rules.py:309-328 | every traceable pixel is covered once in its own colour and no suppressed pixel is covered |
| FigureSvg.GroupedComponents | review_writer_api/figure_rules.py:309-328 | two pixels belong to one object exactly when they are connected |
| FigureSvg.GroupedOrder | review_writer_api/figure_rules.py:313-320 | objects come in the raster order of their first pixels |
| FigureSvg.CoverRenders | review_writer_api/figure_rules.py:320-348 | an exact cover painted on white is the quantised picture, in whatever way it is split into groups |
| FigureSvg.PixelIsShown | review_writer_api/figure_rules.py:196-224 | the quantised picture is white over suppressed pixels and shows the closest levels, channel by channel, over all others |
| FigureSvg.CollectRuns | review_writer_api/figure_rules.py:309-318 | the dictionary groups all runs by representative and colour, in order of first appearance |
| FigureSvg.EmitObjects | review_writer_api/figure_rules.py:319-328 | one object per component, in that order |
| FigureSvg.BuildFullVectorSvg | review_writer_api/figure_rules.py:245-335 | for every raster: the page is white over each suppressed pixel and shows the closest colour of each other one; the objects cover the raster exactly, are its components, ordered and none empty |
| Snapshots.VectorBlob | review_writer_api/sqlite_vectors.py:27-33 | accepted exactly when the length fits, all numbers are finite and one is not zero; then nothing is altered |
| Snapshots.Build | review_writer_api/sqlite_vectors.py:71-101 | fails exactly on a bad dimension, a foreign base or a bad vector; otherwise a chunk not supplied is there exactly if the base has it under an index neither replaced nor stale, with the base's row, a supplied chunk carries its last row, and the count is the size |
| Snapshots.BuiltIsDelta | review_writer_api/sqlite_vectors.py:80-97 | the built table is that delta of its base, whatever the base, the rows and the indexes |
| Snapshots.UpsertedIsDelta | review_writer_api/sqlite_vectors.py:91-97 | chunks supplied hold what was supplied last, all others what they held before |
| VectorStore.LocalVectorStore.Claim | review_writer_api/vector_store.py:91-96 | succeeds exactly on a free or expired lease and issues the next generation |
| VectorStore.LocalVectorStore.Release | review_writer_api/vector_store.py:110-115 | gives up the lease only if it is still this writer's |
| VectorStore.LocalVectorStore.Fence | review_writer_api/vector_store.py:117-137 | passes exactly for the current token and generation, unexpired, with the job still running |
| VectorStore.LocalVectorStore.BeginPublish | review_writer_api/vector_store.py:170-178 | the state read by the first session, or no change |
| VectorStore.LocalVectorStore.CheckRows | review_writer_api/vector_store.py:179-189 | accepts exactly the row sets that complete every ready index and match current sources |
| VectorStore.LocalVectorStore.PreparePublish | review_writer_api/vector_store.py:195-209 | a new version is built on the intact base, or nothing changes |
| VectorStore.LocalVectorStore.VerifyPublish | review_writer_api/vector_store.py:210-211 | fences again before the file is put in place |
| VectorStore.LocalVectorStore.WriteObject | review_writer_api/vector_store.py:212 | the file appears under its own version and replaces none |
| VectorStore.LocalVectorStore.MarkReady | review_writer_api/vector_store.py:222-231 | all named indexes become ready, or the call fails on one that is no longer current |
| VectorStore.LocalVectorStore.CommitPublish | review_writer_api/vector_store.py:213-232 | row, head and readiness change together under a passed fence and unchanged heads and sources, or nothing changes |
| VectorStore.LocalVectorStore.BorrowSnapshot | review_writer_api/vector_store.py:234-261 | a job reads the version it pinned first, others the head; lease and pin are written with the choice |
| VectorStore.LocalVectorStore.RenewReadLease | review_writer_api/vector_store.py:263-267 | extends exactly an unexpired read lease |
| VectorStore.LocalVectorStore.CollectKeep | review_writer_api/vector_store.py:297-310 | the keep set, collected in five queries, is the set of protected versions |
| VectorStore.LocalVectorStore.DropExpired | review_writer_api/vector_store.py:301-309 | exactly expired read leases and pins of completed jobs are deleted |
| VectorStore.LocalVectorStore.UnlinkVersions | review_writer_api/vector_store.py:311-324 | exactly the unprotected versions of age lose their files, or a part of them when an unlink fails |
| VectorStore.LocalVectorStore.UnlinkOrphans | review_writer_api/vector_store.py:325-341 | exactly unregistered files of age are removed, or a part of them when an unlink fails |
| VectorStore.LocalVectorStore.PruneOld | review_writer_api/vector_store.py:289-341 | a finished prune is the model's step; one that raises restores the rows and keeps the unlinked files gone |
| VectorSafety.BuiltIsFaithful | review_writer_api/vector_store.py:179-209 | a built snapshot holds the current content of every non-blank chunk declared ready and no row of a stale index |
| VectorSafety.DoomedIsUnprotected | review_writer_api/vector_store.py:311-341 | nothing prune may remove is protected, even when files without rows are taken |
| VectorSafety.CommitProtects | review_writer_api/vector_store.py:213-221 | a commit newly protects its own version only |
| VectorSafety.ChoiceIsProtected | review_writer_api/vector_store.py:242-256 | what borrow hands out was protected before its lease existed |
| VectorTheorems.StepKeepsInv | review_writer_api/vector_store.py:83-341 | each step of publishers, readers, pruner, clock, jobs and sources keeps the safety invariant |
| VectorTheorems.ReachableIsSafe | review_writer_api/vector_store.py:289-324 | in every reachable state heads, their parents, leased and pinned versions have their rows and files with the recorded bytes |
| VectorTheorems.PruneIsExact | review_writer_api/vector_store.py:289-341 | prune, finished or broken off, keeps every protected file, and when finished removes every unprotected version of age |
| VectorTheorems.BorrowFindsItsFile | review_writer_api/vector_store.py:234-270 | a reader with a head or pin to read is never turned away and finds an intact file under a live lease |
| VectorTheorems.SnapshotsAreImmutable | review_writer_api/vector_store.py:195-212 | over any run a published file keeps its bytes as long as it is there, and once deleted it never comes back |
| VectorTheorems.HeadMovesOnlyByItsWriter | review_writer_api/vector_store.py:213-221 | a head changes only in a commit under the latest generation and an unexpired matching lease, for one profile, to a new version whose parent is the replaced head |
| VectorTheorems.AcquireSupersedes | review_writer_api/vector_store.py:91-96 | taking the lease supersedes every publication in flight |
| VectorTheorems.SupersededNeverCommits | review_writer_api/vector_store.py:117-137 | a superseded publication can never move a head, however the run goes on |
| VectorTheorems.HeadsFormAChain | review_writer_api/vector_store.py:213-221 | over a whole run the heads of a profile form one chain without repeats in which every version names the head it replaced |
| VectorTheorems.ReadyMeansComplete | review_writer_api/vector_store.py:179-231 | at the commit every ready index is complete and current in the published file, and no index outside the sources has a row in it |
| VectorDelta.StepKeepsBases | review_writer_api/vector_store.py:170-221 | every step keeps what a publication remembers of its base true: the row, and the file it builds on |
| VectorDelta.CommitIsDelta | review_writer_api/vector_store.py:202-221 | in every reachable state a commit carries over the old head's rows that are neither supplied, replaced nor of an index that has gone, unchanged, and adds each supplied row as supplied |
| VectorEffects.ReadersAreSafe | review_writer_api/vector_store.py:289-324 | in every reachable state heads, their parents, versions under unexpired read leases and pins of jobs not finished, or failed within a week, have row and intact file |
| VectorEffects.AcquireIsExact | review_writer_api/vector_store.py:91-96 | a lease that is free or over is taken for five minutes under the next generation, any other is left |
| VectorEffects.FenceExtends | review_writer_api/vector_store.py:117-137 | each fenced session of a publication has its lease run for five minutes more |
| VectorEffects.RenewalExtends | review_writer_api/vector_store.py:102-107 | a renewal succeeds exactly under the unexpired lease and generation of the writer and extends it; so does a prune that ends |
| VectorEffects.ReleaseIsExact | review_writer_api/vector_store.py:110-115 | a writer gives up its own lease only |
| VectorEffects.ReadLeaseIsExact | review_writer_api/vector_store.py:263-267 | a read lease is renewed for ten minutes, exactly while it lasts |
| VectorEffects.BorrowIsExact | review_writer_api/vector_store.py:241-261 | a job is given its pin if it has one, otherwise the head, which it pins; other callers are given the head and pin nothing; the lease lasts ten minutes |
| VectorEffects.LaterBorrowsReadThePin | review_writer_api/vector_store.py:252-259 | over any run all borrows of a running job for one profile give the same version |
| VectorEffects.PruneLeaves | review_writer_api/vector_store.py:299-310 | prune keeps exactly the unexpired read leases and the pins of jobs that need them, and touches no head |
| VectorEffects.PruneRemoves | review_writer_api/vector_store.py:311-341 | prune removes exactly the versions that nothing speaks for and that are a day old, and files without a row older than a day |
| VectorEffects.CommitChanges | review_writer_api/vector_store.py:213-231 | a commit changes one head, one version row and the readiness of the named indexes, nothing else |
| VectorEffects.UndisturbedPublishMovesHead | review_writer_api/vector_store.py:163-232 | in every reachable state a complete and current publication that nobody disturbs succeeds |
| VectorEffects.OnlySourcesArePublished | review_writer_api/vector_store.py:185-224 | each published row belongs to a current source, with its paper, index and content, and each index made ready is current |
| VectorEffects.BlankIsExact | review_writer_api/vector_store.py:181 | content is blank exactly when it is all ASCII white space |
| LedgerLaws.HoldIsReserved | review_writer_api/billing.py:307-308 | an active hold never exceeds what its account has reserved, so the clamps at zero never act |
| LedgerLaws.ActiveKeysAreFresh | review_writer_api/billing.py:177-183 | no ledger row uses the settlement or the release key of an active hold |
| LedgerLaws.FreshReserveKey | review_writer_api/billing.py:177-183 | no ledger row uses the key of a reference that has no reservation yet |
| LedgerLaws.ReleaseWrites | review_writer_api/billing.py:382-401 | a release moves the account by exactly what its new row says |
| LedgerLaws.ChargeWrites | review_writer_api/billing.py:306-337 | so does a settlement |
| LedgerLaws.HoldWrites | review_writer_api/billing.py:254-281 | so does a new hold, which the account could afford |
| LedgerLaws.CreditKeepsInv | review_writer_api/billing.py:434-455 | so does an adjustment, and every invariant of the books is kept |
| LedgerLaws.StepKeepsInv | review_writer_api/billing.py:102-455 | every operation keeps reservations, keys, rows and accounts consistent |
| LedgerTheorems.AccountsAlwaysAgree | review_writer_api/billing.py:210-401 | after any operations reserved is the sum of active holds and of ledger deltas, balance is credited less debited and the sum of ledger deltas, and available credit is short by overruns only |
| LedgerTheorems.NoOverrunIsSolvent | review_writer_api/billing.py:241-268 | without overruns balance is at least reserved, which is at least zero |
| LedgerTheorems.LedgerReplays | review_writer_api/billing.py:162-201 | each user's last ledger row carries the present balance and reserved amount |
| LedgerTheorems.StepExtends | review_writer_api/billing.py:162-201 | the ledger only grows at its end |
| LedgerTheorems.NoSilentChange | review_writer_api/billing.py:177-183 | an account that moved has a new row: an old row is never returned for a fresh mutation |
| LedgerTheorems.SweepIsExact | review_writer_api/billing.py:117-160 | the sweep releases exactly the user's active holds of ended jobs whose request is not succeeded, and turns no request succeeded or back |
| LedgerEffects.SweepReleasesOrphans | review_writer_api/billing.py:117-139 | the sweep releases exactly the user's active holds whose job has ended and that no succeeded text or image request stands behind |
| LedgerEffects.SweepFailsAbandoned | review_writer_api/billing.py:131-146 | a request in flight fails with the hold the sweep takes from it; no other request changes |
| LedgerEffects.SweepMovesReserved | review_writer_api/billing.py:134-136 | the sweep changes no balance, no lifetime total and no other user's account |
| LedgerEffects.SummaryLeavesNoOrphans | review_writer_api/billing.py:203-208 | reading an account leaves no orphaned hold on it, and fails only for an unknown user |
| LedgerEffects.SettleIsExact | review_writer_api/billing.py:302-337 | settling an active hold charges exactly the actual cost, marks it overrun exactly when that exceeds the hold, frees the whole hold, writes one row and touches nothing else |
| LedgerEffects.SettleOtherwise | review_writer_api/billing.py:292-305 | negative cost, unknown, closed and released holds: the answer, and no change |
| LedgerEffects.ReleaseIsExact | review_writer_api/billing.py:382-401 | releasing an active hold frees it, charges nothing, writes one row and touches nothing else |
| LedgerEffects.ReleaseOtherwise | review_writer_api/billing.py:378-381 | unknown and closed holds: the answer, and no change |
| LedgerEffects.ReserveRefuses | review_writer_api/billing.py:224-240 | invalid holds are refused, a known reference answers with its own reservation, and nothing changes |
| LedgerEffects.ReserveDecides | review_writer_api/billing.py:241-268 | a new reference gets a hold exactly when the user exists and what the sweep leaves available covers it, to the last unit; the reply names the new reservation |
| LedgerEffects.HoldIsExact | review_writer_api/billing.py:254-281 | a hold adds one active reservation, reserves its amount, writes one row and touches nothing else |
| LedgerEffects.ReserveThenSettle | review_writer_api/billing.py:339-362 | settling by the reference given to reserve charges the reservation that reserve answered with |
| LedgerEffects.AdjustIsExact | review_writer_api/billing.py:414-455 | an adjustment posts its amount with its sign, as credit or as debit; each refusal and its exact condition |
| LedgerTheorems.ClosedOnce | review_writer_api/billing.py:102-401 | over any run a reservation is closed at most once and never changes afterwards |
| LedgerTheorems.ChargedOnce | review_writer_api/billing.py:302-337 | at most one ledger row charges a reservation, and then it is settled or overrun |
| LedgerTheorems.RetryIsHarmless | review_writer_api/billing.py:210-455 | repeating a reserve, settle, settle by reference, release or adjust changes nothing more |
| LedgerTheorems.StepKeepsMetered | review_writer_api/billing.py:131-133 | a succeeded request keeps its hold through a step exactly unless the step releases it, records a failure, or restarts a picture without its cached file |
| LedgerTheorems.MeteredHoldSurvives | review_writer_api/billing.py:110-133 | without such steps the hold lasts over any run until it is charged |
| LedgerTheorems.LostPictureLosesItsCharge | review_writer_api/model_gateway.py:1592-1625 | a run from empty books in which a picture that had succeeded loses its active hold to the sweep, after which settling it is a conflict |
| Billing.BillingService.AppendRow | review_writer_api/billing.py:162-201 | appends one row with the totals of the moment, unless the key is used |
| Billing.BillingService.ReconcileHold | review_writer_api/billing.py:130-159 | one selected hold is treated as in the model, and counted exactly when it is released |
| Billing.BillingService.ReleaseEndedHolds | review_writer_api/billing.py:102-160 | selecting first and treating the holds afterwards has the effect of the sweep of the model |
| Billing.BillingService.AccountSummary | review_writer_api/billing.py:203-208 | creates the account if need be and sweeps it |
| Billing.BillingService.ReserveCredit | review_writer_api/billing.py:210-281 | the model's reserve, with the sweep rolled back when credit is short |
| Billing.BillingService.SettleHold | review_writer_api/billing.py:283-337 | the model's settle |
| Billing.BillingService.SettleByReference | review_writer_api/billing.py:339-362 | the model's settle by reference; unknown references change nothing |
| Billing.BillingService.ReleaseCredit | review_writer_api/billing.py:364-401 | the model's release |
| Billing.BillingService.AdjustCredit | review_writer_api/billing.py:403-455 | the model's adjust |
| PoolLaws.ChosenIsLeast | review_writer_api/text_routing.py:37-39 | the choice has the least load, then the longest disuse, then the first place in the list |
| PoolLaws.AdmitMissesNobody | review_writer_api/text_routing.py:40-46 | an admission makes no sleeping caller admissible |
| PoolLaws.LeaveCounts | review_writer_api/text_routing.py:50-56 | giving a channel back keeps all counters exact and drops the user's zero |
| PoolLaws.StepKeepsInv | review_writer_api/text_routing.py:18-57 | every step keeps the counters exact and misses no waiter |
| PoolTheorems.NoLostWakeUp | review_writer_api/text_routing.py:18-57 | in every reachable state no waiter still asleep could be admitted, whoever has been notified and not yet run |
| PoolEffects.SleepersHaveNoPlace | review_writer_api/text_routing.py:18-57 | in every reachable state the pool, the user or every listed connection of a sleeper is full, counted by open admissions |
| PoolEffects.ResumeIsExact | review_writer_api/text_routing.py:34-47 | a notified caller that gets the lock is let in, on a free channel of its list, exactly when it has a place, and sleeps again with the same call otherwise |
| PoolEffects.EnterIsPresent | review_writer_api/text_routing.py:24-47 | a new caller is let in or sleeps |
| PoolEffects.NobodyIsForgotten | review_writer_api/text_routing.py:24-57 | over any run a caller waits or is served in its own name until it is cancelled or leaves, and sleeps only without a place |
| PoolEffects.QuietPoolServesAll | review_writer_api/text_routing.py:34-47 | once no notified caller is left to run, every caller with a place is served |
| PoolEffects.CancelIsExact | review_writer_api/text_routing.py:47 | a cancelled caller waits no more, and no other caller notices |
| PoolEffects.LimitsAreConfigured | review_writer_api/text_routing.py:8-21 | the limits in force are those last configured, each under its own name |
| PoolEffects.AdmissionsFitConfiguration | review_writer_api/text_routing.py:18-46 | an admission leaves no more open calls than the last configured limits and the known capacity allow |
| PoolEffects.ChosenCarriesLeast | review_writer_api/text_routing.py:37-39 | the channel given has the least share of its capacity in use, compared across channels in whole numbers, and the longest disuse among equals |
| PoolTheorems.DrainedPoolStrandsNobody | review_writer_api/text_routing.py:48-57 | when all channels are back, a sleeper is kept out by configured capacities alone |
| PoolTheorems.CountersAreAdmissions | review_writer_api/text_routing.py:40-56 | active is the number of open admissions and the sum of the user and of the connection counters, each of which counts its own |
| PoolTheorems.AdmissionRespectsLimits | review_writer_api/text_routing.py:35-46 | an admission never ends above a limit in force, even after limits were lowered |
| PoolTheorems.LimitsAreLatest | review_writer_api/text_routing.py:28-32 | a caller's channels leave each connection the capacity of the highest revision they carry, the last of equals |
| PoolTheorems.OldNewsIsIgnored | review_writer_api/text_routing.py:31-32 | a connection on which they carry older revisions only keeps its limit |
| PoolTheorems.RevisionsNeverFall | review_writer_api/text_routing.py:28-32 | the stored capacity revision of a connection never decreases |
| PoolRotation.LearningIsIdempotent | review_writer_api/text_routing.py:28-32 | a list of channels told to the pool again changes no limit, whatever revisions and repeats it holds |
| PoolRotation.UnusedIsIdle | review_writer_api/text_routing.py:24-45 | in every reachable pool with room, a list with a usable connection and no open admission is idle |
| PoolRotation.TurnTakesLeastUsed | review_writer_api/text_routing.py:24-57 | a visit to an idle list is given a usable connection unused for longest, and leaves the list idle |
| PoolRotation.UseIsHistory | review_writer_api/text_routing.py:43-44 | after n visits the stored times of use tell in which visit each connection was last given |
| PoolRotation.RepeatServesAll | review_writer_api/text_routing.py:35-45 | between two visits given the same connection every usable connection of the list is given |
| PoolRotation.Rotation | review_writer_api/text_routing.py:35-45 | on an idle list with k usable connections any k consecutive visits, by whatever users, are given k different ones |
| PoolRotation.RotationFromTheStart | review_writer_api/text_routing.py:8-57 | on a new pool this holds from the first visit on, for k distinct connections with positive capacities |
| TextChannels.TextChannelPool.Configure | review_writer_api/text_routing.py:18-21 | both limits change and everybody asleep is woken |
| TextChannels.TextChannelPool.LearnLimits | review_writer_api/text_routing.py:28-32 | the loop leaves the limits that PoolTheorems.LimitsAreLatest and OldNewsIsIgnored describe |
| TextChannels.TextChannelPool.Select | review_writer_api/text_routing.py:35-39 | the loop finds the least loaded, longest unused, first channel with room, and none only when there is none |
| TextChannels.TextChannelPool.Try | review_writer_api/text_routing.py:34-47 | admitted exactly when the guard holds, otherwise asleep |
| TextChannels.TextChannelPool.Enter | review_writer_api/text_routing.py:24-47 | the head of admit keeps the invariant; an empty list is refused without effect |
| TextChannels.TextChannelPool.Resume | review_writer_api/text_routing.py:34-47 | a notified caller is admitted exactly when the guard holds, otherwise asleep with its own call |
| TextChannels.TextChannelPool.Leave | review_writer_api/text_routing.py:48-57 | the final clause keeps the invariant and wakes everybody |
| Lineage.RootIsUnique | review_writer_api/model_gateway.py:840-847 | a job walks up to at most one root |
| Lineage.RootIsAlike | review_writer_api/model_gateway.py:841-847 | the root is no retry and has the user, project and type of the job |
| Lineage.CycleLeadsNowhere | review_writer_api/model_gateway.py:843-845 | jobs that lead only to one another have no root |
| Lineage.FindRoot | review_writer_api/model_gateway.py:840-847 | on any table, corrupt ones included, the walk ends; it finds the root if there is one and fails only if there is none |
| Lineage.RetryTree | review_writer_api/model_gateway.py:854-857 | on any table the recursive query ends and returns exactly the jobs below the root |
| Lineage.WalkersAreInTree | review_writer_api/model_gateway.py:840-861 | on any table the query misses no job that walks up to the root |
| Lineage.EveryJobHasRoot | review_writer_api/workflow_repository.py:1391-1410 | on tables made by job creation the walk never fails |
| Lineage.TreeIsLineage | review_writer_api/model_gateway.py:840-857 | on such tables the tree of a root is exactly the set of jobs that walk up to it |
| Lineage.RootStays | review_writer_api/model_gateway.py:840-847 | new jobs and status changes never change a root once found |
| Budget.BudgetJob | review_writer_api/model_gateway.py:827-839 | a call is paid by its own job or by a parent of the same user and project that delegates, is queued or running and is not being cancelled; never by a delegated call |
| BudgetLaws.FoundIsOwned | review_writer_api/model_gateway.py:858-861 | up to rows that spent nothing, the rows the query finds are those whose calls the root pays for |
| BudgetLaws.QueryIsTotal | review_writer_api/model_gateway.py:851-863 | what the query adds up, with the request just marked, is all the lineage has spent |
| BudgetLaws.StepSpends | review_writer_api/model_gateway.py:814-871 | a budget's total grows in each step by exactly what the step grants on its behalf |
| BudgetLaws.StepKeepsInv | review_writer_api/model_gateway.py:573-871 | every step keeps the tables consistent and every budget within its limits |
| BudgetTheorems.CountersAreGrants | review_writer_api/model_gateway.py:862-871 | over any run the stored counters are the granted attempts and characters, none lost and none twice |
| BudgetTheorems.BudgetIsNeverExceeded | review_writer_api/model_gateway.py:864-866 | over any run, through retries, siblings, delegated calls and restarts, the attempts and characters granted to a lineage stay within both limits |
| BudgetLaws.ReserveCalls | review_writer_api/model_gateway.py:825-826 | after a granted attempt every call under way still holds the counters of its row, so none can write back old ones; only for an ended job has a request two calls |
| BudgetTheorems.ExhaustedStaysExhausted | review_writer_api/model_gateway.py:864-866 | once its attempts are spent, a lineage is granted none in any later run, through new retries, delegated calls, sweeps and restarts |
| BudgetTheorems.GrantedIffRoom | review_writer_api/model_gateway.py:864-866 | an eligible request is granted exactly when the attempt still fits both limits |
| BudgetVerdicts.RefusedIsExact | review_writer_api/model_gateway.py:821-845 | refused exactly when the request is unknown, its job is not running or being cancelled, nobody eligible pays, or the payer has no root |
| BudgetVerdicts.GrantedIsExact | review_writer_api/model_gateway.py:821-866 | otherwise granted exactly when the attempt fits what its root has left |
| BudgetVerdicts.GrantedIsActive | review_writer_api/model_gateway.py:825-826 | a granted attempt belongs to a running job that is not being cancelled |
| BudgetVerdicts.StrangersEndTheWalk | review_writer_api/model_gateway.py:843-845 | a retry of a job of another user, project or type has no root |
| BudgetVerdicts.KeysStayUnique | review_writer_api/model_gateway.py:583-596 | in every reachable state a job has one request per key |
| BudgetVerdicts.BeginKnown | review_writer_api/model_gateway.py:589-609 | a known key conflicts exactly on other content, and otherwise answers and restarts as the status of its row says |
| BudgetVerdicts.BeginUnknown | review_writer_api/model_gateway.py:611-632 | an unknown key starts a request that has spent nothing |
| BudgetTheorems.CountersNeverFall | review_writer_api/model_gateway.py:573-632 | beginning again, failing, succeeding, being swept and restarting never lower the counters of a request |
| BudgetTheorems.StepKeepsCounters | review_writer_api/model_gateway.py:1158-1186 | only a granted attempt changes the counters of a request, and it adds itself |
| BudgetTheorems.TreesAreLineages | review_writer_api/model_gateway.py:854-857 | in every reachable state each job in a budget's tree walks up to its root, and no other job does |
| ModelGateway.ModelGatewayService.BeginRequest | review_writer_api/model_gateway.py:573-632 | the answer and the row after it, for new, failed, running, succeeded and conflicting requests |
| ModelGateway.ModelGatewayService.AddUp | review_writer_api/model_gateway.py:854-863 | the loop over the found rows returns the lineage's sum |
| ModelGateway.ModelGatewayService.ReserveTextAttempt | review_writer_api/model_gateway.py:814-871 | the attempt is counted and its counters returned, or nothing changes; granted only to a running job that is not being cancelled, refused exactly when no call may be made |
| ModelGateway.ModelGatewayService.FinishRequest | review_writer_api/model_gateway.py:1158-1186 | both endings leave the counters of the row as they were |
| Cost.HalfEven | review_writer_api/model_gateway.py:181 | a nearest unit, the even one on a tie |
| Cost.HalfEvenKeepsOrder | review_writer_api/model_gateway.py:181 | rounding keeps order |
| Cost.CachedPart | review_writer_api/model_gateway.py:174-175 | billed cached tokens lie between zero and the input, and are the reported ones when those make sense |
| Cost.EachKindHasItsPrice | review_writer_api/model_gateway.py:174-181 | uncached input, cached input and output alone cost their own price, and negative counts cost nothing |
| Cost.MillionCostsPrice | review_writer_api/model_gateway.py:176-180 | a million tokens cost their price in USD |
| Cost.PartsAddUp | review_writer_api/model_gateway.py:176-180 | the exact cost is the sum of the three parts, the cached tokens taken out of the input |
| Cost.OddReportsAreCut | review_writer_api/model_gateway.py:174-179 | impossible reports are cut to the nearest possible ones |
| Cost.CostIsNotNegative | review_writer_api/model_gateway.py:167-181 | no token counts, negative ones included, give a negative cost |
| Cost.CostRises | review_writer_api/model_gateway.py:167-181 | a call costs at most what more tokens without any cached ones would |
| Cost.EstimatedInput | review_writer_api/model_gateway.py:1251-1253 | the least positive number of tokens at four bytes each that holds the prompt |
| Cost.EstimatedOutput | review_writer_api/model_gateway.py:1254-1256 | half the input, rounded down, held between the two bounds |
| Cost.EstimateIsExact | review_writer_api/model_gateway.py:1257-1262 | the estimate is the cost of the estimated tokens, none cached |
| Cost.HoldIsExact | review_writer_api/model_gateway.py:1263-1267 | nothing is held exactly for a free call; otherwise 1.2 times the estimate to the nearest unit, or 0.001 USD where that is more |
| Cost.HoldCoversCharge | review_writer_api/model_gateway.py:1251-1267 | a call within the estimated tokens costs no more than was held, through both roundings, the factor and the floor |
| Cost.FifthIsCovered | review_writer_api/model_gateway.py:1263-1267 | so does any call whose exact cost is at most a fifth above the estimate |
| Cost.CoversAllIffFullyCached | review_writer_api/model_gateway.py:1251-1267 | for any non-negative prices, all calls within the estimate are covered exactly when the fully cached one is |
| Cost.DearCacheIsNotCovered | review_writer_api/model_gateway.py:1251-1267 | a price list with a surcharge on cached tokens for which nothing is held and something is charged |
| Cost.EstimatedCallIsNoOverrun | review_writer_api/model_gateway.py:1251-1267 | settling such a call in the ledger is never an overrun and leaves no less credit available |

## Left out

- Raster tracing starts at the matrix of RGB pixels and ends at the list of objects and path commands: decoding, alpha
  compositing, resizing, the SVG text around the paths, the placeholder object of a blank raster and the 25 MB limit are
  not modelled.
- Database isolation anomalies: every session with row locks is one step. Two first publications inserting one store row
  at once, and constraint violations in general, are not modelled.
- SHA-256 is taken as injective: hashes are replaced by what they hash. UUIDs and tokens are fresh.
- One user's vector library is modelled. Free-space checks, the staging directory and its cleanup, and the thread that
  times renewals are left out; a renewal is a step that may or may not happen.
- Snapshots.VectorBlob: values stay as given, because packing into 32-bit floats, which can overflow or round to zero, is
  not modelled.
- Snapshots.Build: builds into a new private file, so the refusal of an existing target path is not modelled.
- VectorStore.LocalVectorStore.MarkReady: records the profile of a ready index only; the embedding count and the cleared
  error fields are not modelled.
- Blank content is content of ASCII white space; other Unicode spaces are not modelled.
- Similarity ranking, its SQL and the sqlite-vec distance are left out; so is the copy that `borrow_object` hands out.
- Job leases, claiming and retry scheduling live in `workflow_repository.py`. A job's status is an input of the models,
  and a terminal status is final.
- VectorTheorems.ReachableIsSafe: covers a file removed by an aborted prune, but not a crash after the last unlink and
  before the commit is known to the caller.
- Ledger amounts are exact integers; the bounds of the Numeric columns, the rounding of inputs by `money`, stripping and
  truncation of reference and key strings, user administration and listings are left out. Idempotency keys are structured
  values instead of concatenated text.
- LedgerTheorems.MeteredHoldSurvives: holds of embedding calls are not covered, because `_linked_request` recognises text
  and image references only.
- Pool loads are compared as exact fractions, not as floats. The order in which woken waiters get the lock is free. A
  waiter cancelled in its wait disappears without waking others, which asyncio would do.
- With calls in flight on the listed connections the load ratio comes first, and no rotation is promised.
- Fairness of admission between waiters: nothing in the source promises it.
- The budget model ends where the provider is called; streaming, partial replies, the number of tries per call and error
  texts are left out. A restart of the service is a step that forgets the running calls.
- In the lineage model job ids are table positions; ids never issued are positions past the end.
- Cost works on real prices; the 28-digit context of decimal arithmetic and negative prices are not modelled. The holds
  of embedding and image calls are left out.
- HTTP routing, mail, provider protocols, encryption and token signing.
