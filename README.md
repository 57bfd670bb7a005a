# Job board queue and reconciler, in Dafny

This project models the job queue of the job board (`JobBoard::JobQueue`) and
its reconciliation sweep (`JobBoard::JobQueueReconciler`). The model is a
sequential state machine over one shared key store.

The store holds:

- the set of known sites;
- the queue names registered under each site;
- each site's workers, in registration order, each with a capacity and a
  liveness flag;
- for each (site, queue), the pending job ids, oldest first, and the claims,
  which map a job id to the worker holding it;
- for each (site, worker), a claim index that lists the ids the worker
  claimed.

A key that does not exist reads as the empty value.

The Ruby implementation of both classes is not part of this model. The
behaviour is taken from the two test files that drive them:
`spec/unit/job_queue_spec.rb` and
`spec/integration/job_queue_reconciler_spec.rb`. Each example in those
files is replayed by a verified method that makes the calls of the
example and of its `before` block, and states the expected results as the
method's postconditions; some methods replay several examples on one
board. Checks that a key exists become membership in the model's sets and
maps. The two files reset the store differently. The integration reset
deletes every key of the site, so those replays start from an empty store.
The unit reset deletes the queue, its claims, the site's queue and worker
lists, the presence key of `a` and the site, but not the claim index of `a`,
which earlier examples may have filled. So the unit replays start from a
board holding only that index, `leftover`, which every unit replay takes as
a parameter; their results hold for every leftover index. The unit examples are in module `Scenarios`: `LookupsWithNoData` and
`RegisterWithNoData` for the empty board, and `RegisterWithQueuedJobIds`,
`ListWithQueuedJobIds`, `ListSiteWithQueuedJobIds`, `ClaimWithQueuedJobIds`,
`RemoveQueued` and `AddToQueued` for the board with four queued ids. The
integration examples are in module `ReconcileScenarios`:
`ReconcileWithNoData`, `AllClaimedReport`, `UnclaimedAvailableReport` and
`ExpiredReport`.

Modules:

- `Collections`: duplicate-free sequences, their element sets, removal of an
  element, enumeration of a finite set, and subsequences (an order-keeping
  embedding of one sequence in another).
- `Store`: the keyed store as a class with one map field per key family; the
  worker list operations (register, expire, live filter, live capacity); and
  the store invariants. The invariants are: every queue's pending ids are
  distinct and none of them is claimed; worker names are unique per site; and
  every id on a worker's claim index is claimed by that worker in some queue
  of its site (`IndexOk`).
- `JobQueue`: register, add, claim, remove, check claims, the three listings
  that fail with `Invalid` for an unknown site, and worker expiry.
- `Reconciler`: reclaiming the claims of expired workers, and the per-worker,
  per-queue and per-site statistics of the sweep.
- `Scenarios` and `ReconcileScenarios`: the test examples, with exact results.

## Model

| member | source | states |
|---|---|---|
| Store.Store.constructor | spec/unit/job_queue_spec.rb:15-28 | a fresh store has no site, queue, worker, pending id, claim or claim index, and meets the store invariants |
| Store.UpsertPlaces | spec/integration/job_queue_reconciler_spec.rb:34-36 | registering a known worker refreshes it in place, live with the new capacity; registering a new one appends it; names stay unique |
| Store.UpsertAppends | spec/integration/job_queue_reconciler_spec.rb:34-36 | a worker not yet registered is appended live at the end of the registration order |
| Store.UpsertRefreshes | spec/unit/job_queue_spec.rb:82-87 | registering a worker again replaces its own entry and no other |
| Store.MarkExpired | spec/integration/job_queue_reconciler_spec.rb:154-158 | expiry marks exactly the named worker not live; every entry keeps its name and capacity at its place, and names stay unique |
| Store.LiveOnlyKeeps | spec/integration/job_queue_reconciler_spec.rb:169-178 | dropping expired workers keeps exactly the live ones, unique, with the same live capacity and no expired name left |
| Store.LiveOnlyInOrder | spec/integration/job_queue_reconciler_spec.rb:169-178 | dropping expired workers keeps the survivors in registration order: the result is a subsequence of the input |
| Store.LiveOnlyAllLive | spec/integration/job_queue_reconciler_spec.rb:55-68 | with no expired worker, dropping expired workers changes nothing |
| Store.LiveOnlyMembers | spec/integration/job_queue_reconciler_spec.rb:169-178 | a worker survives the drop iff it was registered and live |
| Store.LiveOnlyUnique | spec/integration/job_queue_reconciler_spec.rb:169-178 | dropping expired workers keeps names unique |
| Store.LiveOnlyCapacity | spec/integration/job_queue_reconciler_spec.rb:184-190 | dropping expired workers keeps the live capacity |
| Store.ExpireDropsCapacity | spec/integration/job_queue_reconciler_spec.rb:184-190 | expiry of a live worker takes exactly its capacity out of the site's live capacity (6 becomes 4) |
| Store.UntouchedCapacity | spec/integration/job_queue_reconciler_spec.rb:184-190 | expiring a name nobody has leaves the live capacity alone |
| JobQueue.Grant | spec/integration/job_queue_reconciler_spec.rb:39-45 | given the held count, which the caller takes from the worker's claim-index length, a claim hands out no more than is pending and no more than capacity minus held, and all pending ids when they fit |
| JobQueue.HeldAmong | spec/unit/job_queue_spec.rb:59-62 | an id is in the result iff it is in the input and claimed by the worker; the result is no longer than the input |
| JobQueue.HeldAmongInOrder | spec/integration/job_queue_reconciler_spec.rb:83-90 | the ids a worker holds come back in input order: the result is a subsequence of the checked ids |
| JobQueue.HeldAmongAll | spec/integration/job_queue_reconciler_spec.rb:83-90 | when the worker holds every checked id, they all come back in their order |
| JobQueue.HeldAmongNone | spec/unit/job_queue_spec.rb:137-142 | when the worker holds none of the checked ids, the result is empty, even if they are pending |
| JobQueue.FilterHeld | spec/unit/job_queue_spec.rb:137-142 | the filtering loop returns exactly the checked ids the worker holds, in input order |
| JobQueue.ClaimKeepsQueueOk | spec/integration/job_queue_reconciler_spec.rb:39-45 | moving the oldest ids into the claims keeps pending and claimed disjoint and pending duplicate-free |
| JobQueue.ClaimKeepsIndexOk | spec/integration/job_queue_reconciler_spec.rb:39-45 | claiming unclaimed ids for a worker and appending them to its index keeps every indexed id claimed by its worker |
| JobQueue.RemoveKeepsIndexOk | spec/unit/job_queue_spec.rb:150-152 | dropping an id from the claims and from its holder's index keeps every indexed id claimed by its worker |
| JobQueue.DropIndexKeepsOk | spec/integration/job_queue_reconciler_spec.rb:154-158 | deleting a worker's claim index keeps every remaining indexed id claimed by its worker |
| JobQueue.ClaimConserves | spec/integration/job_queue_reconciler_spec.rb:72-73 | a claim keeps pending plus claimed the same size |
| JobQueue.TakeOldest | spec/integration/job_queue_reconciler_spec.rb:39-45 | the loop takes the oldest n pending ids, tags each with the worker and appends them to its claim index |
| JobQueue.RemoveKeepsQueueOk | spec/unit/job_queue_spec.rb:150-152 | removal keeps the queue disjoint and shrinks pending plus claimed by one iff the id was there |
| JobQueue.AddKeepsQueueOk | spec/unit/job_queue_spec.rb:154-157 | appending a fresh id keeps the queue disjoint |
| JobQueue.NewestFirst | spec/unit/job_queue_spec.rb:114-128 | the i-th listed job is the i-th most recently added pending id, with no claimant |
| JobQueue.ListingCoversClaims | spec/unit/job_queue_spec.rb:114-128 | a listing's entries after the pending part are exactly the claimed ids, each once |
| JobQueue.Listing | spec/unit/job_queue_spec.rb:114-128 | builds a listing: pending ids newest first with no claimant, then each claimed id once with its holder |
| JobQueue.ForQueue | spec/unit/job_queue_spec.rb:51-57 | `Invalid` iff the site was never registered; otherwise the queue's listing |
| JobQueue.ForSite | spec/unit/job_queue_spec.rb:95-112 | `Invalid` iff the site was never registered; otherwise each registered queue once, with its listing |
| JobQueue.ForWorker | spec/unit/job_queue_spec.rb:86-93 | `Invalid` iff the site was never registered; otherwise the indexed ids the worker still holds, empty when its index is empty |
| JobQueue.Expire | spec/integration/job_queue_reconciler_spec.rb:154-158 | the worker is marked expired and its claim index is gone; claims stay; store invariants kept, and the remaining index entries stay backed by claims |
| JobQueue.JobQueue.constructor | spec/unit/job_queue_spec.rb:9-13 | a job queue is a handle on the store for one site and queue name |
| JobQueue.JobQueue.Register | spec/unit/job_queue_spec.rb:32-37 | the site joins the sites, the queue joins the site's queues, the worker is registered or refreshed live with its capacity |
| JobQueue.JobQueue.Add | spec/unit/job_queue_spec.rb:74-77 | the id goes to the tail of pending; the returned length is the old length plus one |
| JobQueue.JobQueue.TakeForWorker | spec/integration/job_queue_reconciler_spec.rb:39-45 | the oldest Grant-many pending ids move into the claims under the worker and onto its index; pending plus claimed is conserved; every index entry stays backed by a claim |
| JobQueue.JobQueue.Claim | spec/unit/job_queue_spec.rb:64-68 | refreshes the registration, then claims as TakeForWorker; on an empty queue it returns nothing and never fails; every index entry stays backed by a claim |
| JobQueue.JobQueue.Remove | spec/unit/job_queue_spec.rb:70-72 | returns 1 iff the id was pending or claimed, else 0; removes it from pending, the claims and its holder's index; nothing else changes; every index entry stays backed by a claim |
| JobQueue.JobQueue.CheckClaims | spec/unit/job_queue_spec.rb:59-62 | returns exactly the input ids the worker holds in this queue, in input order |
| Reconciler.Available | spec/integration/job_queue_reconciler_spec.rb:69-81 | available is capacity minus claimed, floored at zero |
| Reconciler.RequeueKeepsQueueOk | spec/integration/job_queue_reconciler_spec.rb:179-188 | reclaiming keeps the queue disjoint, leaves no claim of an expired worker, grows pending by the number of dropped claims, and conserves pending plus claimed |
| Reconciler.NoExpiryNoReclaim | spec/integration/job_queue_reconciler_spec.rb:78 | with no expired worker, reclaiming leaves pending and the claims unchanged |
| Reconciler.Requeue | spec/integration/job_queue_reconciler_spec.rb:179-188 | the loop appends each id held by an expired worker once at the tail of pending and drops its claim; returns how many |
| Reconciler.ReclaimQueue | spec/integration/job_queue_reconciler_spec.rb:179-188 | reclaims one queue of the store, keeping `Valid()` (pending duplicate-free and unclaimed, worker names unique) and touching no other queue |
| Reconciler.SiteStatsCount | spec/integration/job_queue_reconciler_spec.rb:69-81 | a site's rows cover its queues once each; they sum to its pending and claimed counts; capacity is the live capacity; available is capacity minus claimed, floored at zero, for every row and the site |
| Reconciler.WorkerRowsAreLive | spec/integration/job_queue_reconciler_spec.rb:55-68 | worker rows list exactly the live workers, one row each, idle ones at 0, each with the length of its claim index |
| Reconciler.RequeueConservesSite | spec/integration/job_queue_reconciler_spec.rb:182-183 | over a site's queues, reclaiming conserves queued plus claimed and never shrinks queued |
| Reconciler.ReclaimSite | spec/integration/job_queue_reconciler_spec.rb:179-188 | reclaims every queue of a site, leaves other keys alone, and counts the ids that went back |
| Reconciler.ReconcileSite | spec/integration/job_queue_reconciler_spec.rb:161-192 | one site swept: expired workers dropped with their indexes, their claims requeued, and the site's report accurate |
| Reconciler.Reconcile | spec/integration/job_queue_reconciler_spec.rb:20-27 | reports every known site exactly once, an empty list when there is none; every report is accurate; only the expired workers' data changed; index entries stay backed by claims |
| Reconciler.SweepKeepsIndexOk | spec/integration/job_queue_reconciler_spec.rb:193-200 | a sweep keeps every indexed id claimed by its worker |
| Reconciler.SweptLeavesNoExpired | spec/integration/job_queue_reconciler_spec.rb:169-178 | after a sweep no swept site has an expired worker |
| Reconciler.IdleSweep | spec/integration/job_queue_reconciler_spec.rb:78 | a sweep over sites with no expired worker leaves workers, pending ids, claims and claim indexes unchanged |
| Reconciler.IdleReports | spec/integration/job_queue_reconciler_spec.rb:78 | when a sweep changed no pending list or claim, every report says 0 reclaimed |
| Reconciler.SecondSweepIdle | spec/integration/job_queue_reconciler_spec.rb:47-82 | a second sweep right after a sweep changes nothing, reclaims 0 at every site, and each first report still describes the store apart from its reclaimed count |
| Reconciler.ReconcileAgain | spec/integration/job_queue_reconciler_spec.rb:20-27 | reconciling twice in a row: the second report covers the same sites and reclaims nothing; the reports of both sweeps are the statistics of the final store; no site is left with an expired worker |
| Scenarios.UnitBoard | spec/unit/job_queue_spec.rb:15-28 | the board the unit reset leaves: no site, queue, worker, pending id or claim; only the leftover claim index of `a` |
| Scenarios.LookupsWithNoData | spec/unit/job_queue_spec.rb:39-62 | on the reset board, for_worker, for_site and for_queue are `Invalid`, check_claims gives `[]`; also the remove at :70-72, which gives 0 |
| Scenarios.RegisterWithNoData | spec/unit/job_queue_spec.rb:32-37 | on the reset board, register records site `test`, queue `lel` and live worker `a`; then, on that board, the claim at :64-68 gives `[]` and the add at :74-77 gives length 1 |
| Scenarios.Registered | spec/unit/job_queue_spec.rb:32-37 | registering `a` on the reset board records the site, the queue `lel` and the live worker, with nothing pending or claimed and the index of `a` left as it was |
| Scenarios.Queued | spec/unit/job_queue_spec.rb:80-84 | after registering `a` and adding four ids, `lel` holds `0`..`3` pending and nothing claimed; the index of `a` is the leftover one |
| Scenarios.RegisterWithQueuedJobIds | spec/unit/job_queue_spec.rb:130-135 | registering `a` again on the board with four queued ids keeps the site, queue and worker, and leaves `0`..`3` pending with nothing claimed |
| Scenarios.ListWithQueuedJobIds | spec/unit/job_queue_spec.rb:86-93 | with four queued ids, for_worker gives an empty list whatever the leftover index, since no id is claimed; the for_queue example at :114-128 lists `3`, `2`, `1`, `0` unclaimed; the check_claims example at :137-142 gives `[]` |
| Scenarios.ListSiteWithQueuedJobIds | spec/unit/job_queue_spec.rb:95-112 | with four queued ids, for_site gives the one queue `lel` listing `3`, `2`, `1`, `0` unclaimed |
| Scenarios.ClaimWithQueuedJobIds | spec/unit/job_queue_spec.rb:144-148 | with four queued ids, a claim gives the oldest ids, as many as `Grant` allows with the leftover index length as the held count: up to the capacity when there is no leftover index, none when the leftover index fills the capacity; never nil |
| Scenarios.RemoveQueued | spec/unit/job_queue_spec.rb:150-152 | with four queued ids, removing `0` gives 1 and leaves `1`, `2`, `3` pending |
| Scenarios.AddToQueued | spec/unit/job_queue_spec.rb:154-157 | with four queued ids, adding `4` gives length 5 |
| ReconcileScenarios.AddFour | spec/integration/job_queue_reconciler_spec.rb:32 | four adds give the pending list `0`..`3` and nothing claimed |
| ReconcileScenarios.RegisterNew | spec/integration/job_queue_reconciler_spec.rb:34-36 | registering a new worker appends it, live with capacity 2 |
| ReconcileScenarios.Populated | spec/integration/job_queue_reconciler_spec.rb:30-37 | the populated board: workers `a`, `b`, `c` with capacity 2, ids `0`..`3` pending, nothing claimed |
| ReconcileScenarios.ClaimStep | spec/integration/job_queue_reconciler_spec.rb:39-45 | a claim with capacity 2 takes the oldest ids up to the worker's free capacity, onto its index |
| ReconcileScenarios.ClaimedByAB | spec/integration/job_queue_reconciler_spec.rb:41-42 | after claims by `a` then `b`, `a` holds `0`, `1` and `b` holds `2`, `3` |
| ReconcileScenarios.ClaimAtCapacity | spec/integration/job_queue_reconciler_spec.rb:94-99 | a worker whose claim index is as long as its capacity takes nothing and the board is unchanged |
| ReconcileScenarios.FullyClaimed | spec/integration/job_queue_reconciler_spec.rb:40-45 | claims by `a`, `b`, `a`, `b` leave `a` with `0`, `1` and `b` with `2`, `3` |
| ReconcileScenarios.ExpireA | spec/integration/job_queue_reconciler_spec.rb:154-158 | deleting the keys of `a` marks it expired and empties its index; queues unchanged |
| ReconcileScenarios.ExpiredBoard | spec/integration/job_queue_reconciler_spec.rb:148-159 | the fully claimed board after `a` expires |
| ReconcileScenarios.OnlySite | spec/integration/job_queue_reconciler_spec.rb:51-52 | a sweep of the one site reports exactly it, with the statistics of its one queue |
| ReconcileScenarios.LiveRows | spec/integration/job_queue_reconciler_spec.rb:55-68 | with all workers live, the rows are `a`, `b`, `c` with their index lengths; capacity 6 |
| ReconcileScenarios.ExpiredRows | spec/integration/job_queue_reconciler_spec.rb:169-178 | with `a` expired, the rows are `b`, `c`; capacity 4 |
| ReconcileScenarios.ReclaimedFromA | spec/integration/job_queue_reconciler_spec.rb:179-188 | reclaiming the claims of `a` puts back exactly `0` and `1`; `b` keeps `2`, `3` |
| ReconcileScenarios.LiveClaimsReport | spec/integration/job_queue_reconciler_spec.rb:53-82 | the report with all claims live: a 2, b 2, c 0; lel 0 queued, 4 claimed, capacity 6, 2 available; 0 reclaimed; claims unchanged |
| ReconcileScenarios.ExpiredClaimsReport | spec/integration/job_queue_reconciler_spec.rb:167-192 | the report after `a` expires: b 2, c 0; lel 2 queued, 2 claimed, capacity 4, 2 available; 2 reclaimed; pending holds `0`, `1` |
| ReconcileScenarios.SweepLive | spec/integration/job_queue_reconciler_spec.rb:47-82 | reconciling the live board gives the live report and keeps every claim |
| ReconcileScenarios.SweepExpired | spec/integration/job_queue_reconciler_spec.rb:161-192 | reconciling after `a` expires gives the expired report and leaves only `b`'s claims |
| ReconcileScenarios.CheckHeld | spec/integration/job_queue_reconciler_spec.rb:193-200 | checking returns every id when the worker holds them all, and nothing when it holds none |
| ReconcileScenarios.ReconcileWithNoData | spec/integration/job_queue_reconciler_spec.rb:20-27 | reconciling an empty board reports an empty site list |
| ReconcileScenarios.AllClaimedReport | spec/integration/job_queue_reconciler_spec.rb:39-91 | after claims by a, b, a, b: the report a 2, b 2, c 0; lel 0 queued, 4 claimed, capacity 6, 2 available; 0 reclaimed; a holds `0`, `1` and b holds `2`, `3` |
| ReconcileScenarios.UnclaimedAvailableReport | spec/integration/job_queue_reconciler_spec.rb:94-145 | after claims by a, b, a: the same report; a holds `0`, `1` and b holds `2` |
| ReconcileScenarios.ExpiredReport | spec/integration/job_queue_reconciler_spec.rb:148-201 | after a expires: the report b 2, c 0; lel 2 queued, 2 claimed, capacity 4, 2 available; 2 reclaimed; a holds nothing and b holds `2` |

## Left out

- Redis mechanics are not modelled: key names, MULTI blocks, the connection pool, and the test setup that globs and deletes keys.
- Lease timing is not modelled: worker keys with a TTL become a liveness flag, and expiry is the explicit `JobQueue.Expire`.
- Concurrency is not modelled: each operation is one atomic sequential step.
- Claim timestamps are left out. They are diagnostic and nothing reads them.
- The capacity key of `a` also survives the unit reset. The model keeps a worker's capacity in its entry of the site's worker list, which the reset deletes and every registration rewrites, so the surviving capacity key has no counterpart.
- Default capacities are not modelled. The tests call `register` and `claim` without a capacity but never fix the default, so capacity is always a parameter. `Scenarios` takes it as an argument.
- Partial expiry is not modelled. Expiry removes all three of the worker's keys together; the case where only some are missing is not fixed by the tests.
- Queue-level capacity with several queues per site is not fixed by the tests. Each queue row reports the site's live capacity.
- JobQueue.JobQueue.Add: requires an id that is neither pending nor claimed in that queue. Adding an id twice is not fixed by the tests, and job ids are database keys.
- JobQueue.ForWorker: always takes a queue name. The default used when the name is omitted is not fixed by the tests.
- JobQueue.Listing: the order of the claimed jobs after the pending ones is not fixed by the tests, so the contract says only that each claimed id appears once.
- Reconciler.Requeue: the order in which reclaimed ids are appended to pending is left open. The contract says only that each appears once, behind the ids already waiting.
- Reconciler.Reconcile: the order of sites in the report is left open, since the tests look the site up by name. The order of the queues within a site's report is left open too. A second sweep reclaims 0 at every site, and its reports and the first sweep's describe the same final store (`Reconciler.ReconcileAgain`, `Reconciler.SecondSweepIdle`). So when the first sweep reclaimed nothing, the two reports agree up to that order.
- The claim index is tied to the claims in one direction only. Every indexed id is claimed by its worker (`IndexOk`), but a claim need not be on its holder's index. After a worker expires and before a sweep, its claims stay while its index is gone; if it registers and claims again in that window, its index starts empty and its held count is 0. The tests do not fix this case.
- `lib/job_board/services/fetch_job.rb` is not part of this model. It is database lookups, configuration merging, encoding and token creation.
- `lib/job_board/image_updater.rb` is not part of this model. It wraps a database transaction around parsers that are not shown.
- `lib/job_board/models/job.rb` is not part of this model. It is an ORM declaration with no logic.
