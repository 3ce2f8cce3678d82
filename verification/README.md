# sleepypods verification

A Dafny model of four parts of sleepypods, with proofs about all their inputs,
runs and interleavings.

- **Frontline route cache.** `CacheSpec` is the cache as two bounded FIFO lines
  of answers with deadlines. `RouteCache` (module `FrontlineCache`) is the cache
  as stored, seven maps and a counter, and is proved to refine the lines for
  every operation sequence. `CacheContents` says position by position what each
  operation leaves (`Choosing` has the words for that); conservation of
  subscription IDs, expiry laws, the provenance of IDs and the order of
  generations are proved on the lines as well.
- **Projection protocol.** `Decimal` and `Stamps` are generation labels and
  ownership stamps; `Planning` and `Plans` turn a manifest into a plan; `Cluster`
  is a cluster in which anyone may change anything between two calls and lost
  requests land at any later time; `Projection`, `Rollout` and `Teardown` inspect,
  apply and delete. Mutations run under the client's retry loop.
  `ProjectionLaws` says exactly what is asked for, `CalmProjection` what comes of
  it if nobody else acts.
- **Lifecycle.** `Lifecycle` is the store of one instance as transactions;
  `LifecycleLaws`, `LifecycleFence` and `LifecycleRuns` prove what every run keeps
  and what generations tell; `LifecycleActors` are the callers, with arbitrary
  transactions of others between any two of their calls, and `LifecycleDrivers`
  the drivers that join store and cluster; `LifecycleMoves` and
  `LifecycleProgress` say exactly what moves an instance and that it is never
  stuck; `FencedCalls` is one mutation inside the effect fence and `FencedRuns`
  interleaves any number of drivers; `Generations` joins lifecycle and stamps;
  `Scheduler` is the bounded job scheduler.
- **Retry.** `Retry` is the loop and its backoff, `ClientErrors` what is retried and
  what is final.

Check everything with `dafny verify dfyconfig.toml`.

Conventions: instants, sequence numbers and generations are naturals; durations
in the backoff carry their real upper bound; a live object's UID and
resourceVersion are numbers, zero standing for a missing string; the hash of a
rendered object is a parameter. Scripts (`Turn`, `Op` lists) stand for everything
the environment does, so a contract over a script holds for every environment; the
cluster keeps a chronicle of what was done to it and by whom, and is proved to be
what the chronicle makes of it. An empty script stands for nobody else acting and
every call being served; contracts that assume it say what is then bound to happen.
Of the API server it is assumed that every change of an object gives it a version
never used before, that a conditional call takes effect only on the version it
names and a create only on an absent name, and that a call answered with a status
below 500, or never sent, did nothing.

Findings where a promise does not hold as stated:

- A report for generation `e` is answered "accepted" when the record is Cold at
  `e + 2`. After deletion and re-creation that record can be a creation, and the
  instance never slept: `RecreationLooksAsleep`. The answer is true exactly when
  the instance has a row: `MismatchAnswerHonest`, `AcceptedExactlyWithRows`.
- Subscription IDs balance on insertion exactly when no answer that survives the
  expiry pass holds the incoming ID (or the insertion is refused), and are off by
  exactly that ID otherwise: `InsertConserves`, `SharedIdIsLost`.
- Backend generations can go back through an entry that does not know its own:
  `BackendGenerationMayRegress`; exactly when they can: `BridgesExactly`,
  `RegressesExactly`.
- The mark of a mutation that may still arrive leaves its row if an operator
  removes the row, and exactly then: `NextGuarded`. Two mutations for one row can
  then be in flight: `OverrideLetsTwoFly`.
- A bare compare-and-swap, which the store accepts though nothing in production
  sends it, can strand a deferred wake: `SwapsStrandWake`, and exactly then:
  `StepDeferred`.
- An instance is stranded, short of deletion, once the row it needs is marked
  deleted, as an operator can: `CutStrands`, and exactly then: `OrderlyExactly`.

## Model

| member | source | states |
|---|---|---|
| `FrontlineCache.RouteCache.constructor` | crates/frontline/src/cache.rs:152-164 | a new cache stands for two empty lines of answers |
| `FrontlineCache.RouteCache.MapsAgree` | crates/frontline/src/cache.rs:77-88 | in every valid cache each answer has exactly one order key and one expiry key and each key names its answer; sequence numbers never exceed the counter; IDs and the answers that hold one are in bijection; no identity is answered both ways; neither half exceeds capacity |
| `FrontlineCache.RouteCache.Clear` | crates/frontline/src/cache.rs:409-411 | clearing leaves the empty cache |
| `FrontlineCache.RouteCache.Lookup` | crates/frontline/src/cache.rs:174-187 | a probe of the maps answers what a scan of the two lines would, at every identity and time; `CacheContents.LookupExactly` says what that is |
| `FrontlineCache.RouteCache.NeedsReregistration` | crates/frontline/src/cache.rs:301-305 | exactly the unexpired answers without an ID |
| `FrontlineCache.RouteCache.Positive` | crates/frontline/src/cache.rs:392-394 | the answer the line holds for the identity |
| `FrontlineCache.RouteCache.PositiveBySubscription` | crates/frontline/src/cache.rs:395-402 | the answer the line holds under the ID |
| `FrontlineCache.RouteCache.RemovePositive` | crates/frontline/src/cache.rs:417-426 | removes one answer from the line and from all four maps that know it, and returns it |
| `FrontlineCache.RouteCache.RemovePositiveBySubscription` | crates/frontline/src/cache.rs:427-433 | removes the answer the ID backs, if any |
| `FrontlineCache.RouteCache.RemoveNegative` | crates/frontline/src/cache.rs:434-439 | removes one negative answer from the line and its three maps |
| `FrontlineCache.RouteCache.HasExpired` | crates/frontline/src/cache.rs:308-316 | true exactly when some answer of either line is due |
| `FrontlineCache.RouteCache.ExpireLimited` | crates/frontline/src/cache.rs:321-343 | expiry by the index order is expiry of the lines in (deadline, insertion) order within one shared budget, with the same released IDs in the same order |
| `FrontlineCache.RouteCache.Expire` | crates/frontline/src/cache.rs:317-319 | expiry with the largest budget |
| `FrontlineCache.RouteCache.IndexPositive` | crates/frontline/src/cache.rs:247-258 | a new answer joins the end of the line under a fresh sequence number |
| `FrontlineCache.RouteCache.EvictPositives` | crates/frontline/src/cache.rs:238-243 | eviction drops exactly the oldest answers over capacity, so that the newest within capacity stay, and reports their IDs, oldest first |
| `FrontlineCache.RouteCache.InsertResolved` | crates/frontline/src/cache.rs:204-245 | the whole insertion (expiry, staleness, replacement, alias removal, eviction) equals the insertion on lines, in state and in reported IDs; `CacheContents.InsertExactly` and `RefusalExactly` say which answers that leaves |
| `FrontlineCache.RouteCache.InsertNegative` | crates/frontline/src/cache.rs:273-297 | the whole negative insertion equals the one on lines; `CacheContents.NegativeExactly` says which answers that leaves |
| `FrontlineCache.RouteCache.InvalidateSubscription` | crates/frontline/src/cache.rs:344-346 | drops the answer the ID backs and says whether there was one |
| `FrontlineCache.RouteCache.InvalidateRequest` | crates/frontline/src/cache.rs:350-352 | drops the answer of an identity and returns its ID |
| `FrontlineCache.RouteCache.ReplaceSubscription` | crates/frontline/src/cache.rs:356-370 | rewrites the answer the ID backs, keeping its FIFO place, or nothing |
| `FrontlineCache.RouteCache.RefreshPositive` | crates/frontline/src/cache.rs:371-391 | rewrites an answer and its expiry key, keeping its FIFO place, ID and sequence number |
| `FrontlineCache.RouteCache.RotateSession` | crates/frontline/src/cache.rs:260-272 | forgets every ID, keeps every answer, and reports each cached identity exactly once |
| `FrontlineCache.SubscriptionState.ApplyUpdate` | crates/frontline/src/subscription.rs:327-351 | an update reaches the cache only under a live ID and only if it is not stale |
| `FrontlineCache.SubscriptionState.ApplyReadyWake` | crates/frontline/src/subscription.rs:303-325 | a finished wake refreshes the answer it was issued for, within its remaining lifetime, unless stale |
| `FrontlineCache.SubscriptionState.PerformAll` | crates/frontline/src/cache.rs:151-440 | refinement over every operation sequence: the stored cache ends in the state of the index-free run and has released the same IDs in the same order |
| `CacheLines.StepWellFormed` | crates/frontline/src/cache.rs:204-440 | every operation keeps identities and IDs unique, the halves disjoint and both within capacity |
| `CacheLines.RunWellFormed` | crates/frontline/src/cache.rs:204-440 | hence every run does, from the empty cache on, for every capacity |
| `CacheSpec.StaleRouteEntry` | crates/frontline/src/cache.rs:450-477 | not stale exactly when the incoming entry is of another instance or no older in both generations that are known |
| `CacheConservation.InsertConserves` | crates/frontline/src/cache.rs:204-245 | IDs live before plus the incoming one equal IDs live after plus IDs reported, as multisets, if and only if the insertion carries no ID, or meets a newer answer for its identity, or no answer holds its ID, where answers count that are not due or have 64 others due before them; otherwise the balance is off by exactly that ID |
| `CacheConservation.SharedIdIsLost` | crates/frontline/src/cache.rs:204-245 | counterexample: two identities inserted under one ID leave it live once and never reported |
| `CacheConservation.InsertReleasesOnce` | crates/frontline/src/cache.rs:204-245 | with a fresh incoming ID, live and reported IDs are disjoint and none is reported twice |
| `CacheConservation.NegativeConserves` | crates/frontline/src/cache.rs:273-297 | the same balance for negative insertions |
| `CacheConservation.ExpireConserves` | crates/frontline/src/cache.rs:321-343 | the same balance for expiry passes |
| `CacheConservation.RunConserves` | crates/frontline/src/cache.rs:204-440 | over every run with fresh IDs: everything given equals everything live plus everything reported plus everything ended by the control plane or a rotation |
| `CacheExpiry.ExpireComposes` | crates/frontline/src/cache.rs:321-343 | a pass with budget a and then b is one pass with a + b, in state and in reported IDs in order |
| `CacheExpiry.ExpiryIsExact` | crates/frontline/src/cache.rs:308-343 | expired answers remain after a pass exactly when there were more than its budget; a pass with a positive budget changes something exactly when has_expired holds |
| `CacheExpiry.SweepCount` | crates/frontline/src/cache.rs:321-343 | a pass removes as many due answers as its budget allows |
| `CacheExpiry.SweptExactly` | crates/frontline/src/cache.rs:321-343 | a pass drops an answer exactly if it is due and fewer answers than the budget are due before it |
| `CacheExpiry.ExpireLookups` | crates/frontline/src/cache.rs:174-187 | from then on every lookup is unchanged, except that Expired may have become Absent |
| `CacheExpiry.ExpireAllLookups` | crates/frontline/src/cache.rs:317-319 | with budget for all that is due, Expired always becomes Absent and nothing else changes |
| `CacheContents.ExpireExactly` | crates/frontline/src/cache.rs:321-343 | a pass leaves exactly the answers that are not due, or have as many due before them as its budget, in their order; negative answers get what positive ones leave of the budget |
| `CacheContents.InsertExactly` | crates/frontline/src/cache.rs:204-245 | what an accepted insertion leaves, answer by answer and in order: the new answer is last, and of the others exactly those stay that survive the expiry pass, are not of its identity or under its ID, and have fewer than capacity - 1 such answers after them |
| `CacheContents.InsertKeeps` | crates/frontline/src/cache.rs:204-245 | the same seen from one answer: another identity is still answered as before exactly under that condition |
| `CacheContents.InsertSpares` | crates/frontline/src/cache.rs:204-245 | while there is room, an insertion removes nothing but its own identity, answers under its ID and what the expiry pass takes |
| `CacheContents.RefusalExactly` | crates/frontline/src/cache.rs:204-245 | a refused insertion leaves exactly what the expiry pass leaves, less the newer answer if no stream backs it |
| `CacheContents.NegativeExactly` | crates/frontline/src/cache.rs:273-297 | the same for a negative insertion: its answer is last and good until now + ttl, of the other negative ones the newest capacity - 1 survivors stay, and of the positive ones only that of its identity goes |
| `CacheContents.LookupExactly` | crates/frontline/src/cache.rs:174-187 | each of the four answers of a lookup exactly by what the lines hold: positive or negative if such an answer is there and not due, expired if there is one that is due, absent if there is none |
| `CacheContents.NegativeLasts` | crates/frontline/src/cache.rs:273-297 | after any run, a negative answer just inserted is given until exactly its ttl is over, and is then reported expired |
| `CacheContents.AnswerLasts` | crates/frontline/src/cache.rs:204-245 | after any run, an answer just accepted is given until exactly its deadline, and is then reported expired |
| `CacheContents.UpdateExactly` | crates/frontline/src/subscription.rs:327-351 | an update that is not stale takes effect on exactly the answer its ID backs, in its old place and for ttl from now; everything else stays as it is |
| `CacheContents.ReplaceExactly` | crates/frontline/src/cache.rs:356-370 | a replacement does the same whatever the generations say |
| `CacheContents.ReadyWakeExactly` | crates/frontline/src/subscription.rs:303-325 | a finished wake takes effect on exactly the answer of its identity unless that is newer, which keeps its ID and place and is good until the deadline of the answer the wake was issued for |
| `CacheContents.InvalidateExactly` | crates/frontline/src/cache.rs:344-352 | exactly the answer under the ID, or of the identity, is dropped |
| `CacheContents.NeedsExactly` | crates/frontline/src/cache.rs:301-305 | exactly the answers that no stream backs and that are not due need to be registered again |
| `CacheProvenance.StepBacks` | crates/frontline/src/cache.rs:204-402 | one operation: an ID backs an answer afterwards only if it was attached to it now, or backed it before and the operation did not sever them |
| `CacheProvenance.RunBacks` | crates/frontline/src/cache.rs:204-402 | over every run: an ID on an answer was attached to that very answer, with no severing operation or rotation since |
| `CacheProvenance.OldIdIgnored` | crates/frontline/src/cache.rs:264-272 | after a rotation, whatever else happens, a message under an ID not attached again changes nothing |
| `CacheProvenance.MessageReachesOne` | crates/frontline/src/cache.rs:344-370 | a message changes no answer but the one its ID backs |
| `CacheProvenance.RotationKeepsAnswers` | crates/frontline/src/cache.rs:260-305 | rotation leaves every lookup unchanged apart from the ID, leaves no ID live, and needs_reregistration then holds exactly for the unexpired answers |
| `CacheOrder.StepNoRollback` | crates/frontline/src/cache.rs:204-245 | no guarded operation rolls an unexpired answer of one instance back to an older generation |
| `CacheOrder.RollbackExactly` | crates/frontline/src/cache.rs:204-245 | an older entry displaces a cached one exactly when the cached one has expired and fewer than 64 answers are due before it |
| `CacheOrder.GenerationsAscend` | crates/frontline/src/cache.rs:204-245 | along any run that keeps the identity answered by one instance, instance generations never decrease, nor backend generations while known throughout |
| `CacheOrder.BackendGenerationMayRegress` | crates/frontline/src/cache.rs:468-474 | counterexample, with three insertions under IDs of their own: through an entry of unknown backend generation, 5 is followed by 3 |
| `CacheOrder.BridgesExactly` | crates/frontline/src/cache.rs:450-477 | whatever may follow an entry may follow the one before it, exactly when that one knows no backend generation above zero or the entry knows one |
| `CacheOrder.RegressionPassesUnknown` | crates/frontline/src/cache.rs:204-245 | a steady run that ends below the backend generation it began with has passed an entry that knew none |
| `CacheOrder.RegressesExactly` | crates/frontline/src/cache.rs:204-245 | a steady run that began with a known backend generation above zero can go on, at any time, to a lower one exactly when its present entry knows none or is already below |
| `Retry.RetryIf` | crates/control-plane/src/retry.rs:31-58 | for every result sequence: between 1 and max(1, max_attempts) calls, the last result is returned, every earlier call failed retryably, the last one did not or used up the attempts, and the pauses are the closed form |
| `Retry.NextWait` | crates/control-plane/src/retry.rs:71-77 | the saturating recurrence computes min(initial * 2^n, max), through the overflow branch too |
| `Retry.TotalWait` | crates/control-plane/src/retry.rs:31-58 | the pauses sum to at most initial + (pauses - 1) * max |
| `Retry.WaitsSaturate` | crates/control-plane/src/retry.rs:71-77 | once a pause reaches the cap, every later one equals it |
| `ClientErrors.OnlyDefiniteIsPermanent` | crates/control-plane/src/reconciler.rs:926-955 | however a client error is wrapped, the result is permanent exactly if the error was made by the definite constructor and did not come from waiting; an uncertain one never is |
| `ClientErrors.OnlyHopelessIsPermanent` | crates/control-plane/src/reconciler.rs:939-955 | of the errors with no client error behind them, exactly those are permanent that another attempt is bound to end with: failed rendering, stale references, an invalid or missing manifest, a foreign object, an unknown or invalid row |
| `Cluster.UncertainExactly` | crates/control-plane/src/kube_materializer.rs:816-854 | a failed mutation is called uncertain exactly if the call was lost or answered with 500 or above, and is retried exactly on a conflict or throttling below that |
| `Decimal.ParsePrint` | crates/control-plane/src/projection.rs:253-265 | a printed number parses back exactly when it fits 64 bits |
| `Decimal.ParseExactly` | crates/control-plane/src/projection.rs:762-769 | what parses as a generation label, and to what: an optional plus, digits, at least one, of a value that fits 64 bits |
| `Decimal.PrintInjective` | crates/control-plane/src/materializer.rs:861-940 | two printed generations are equal exactly when the generations are |
| `Stamps.StampOwnership` | crates/control-plane/src/projection.rs:738-797 | which plans own a stamped object: those of its materialization and instance, at a later generation, or at the same one expecting no hash or its hash; and no others |
| `Stamps.StampOrdered` | crates/control-plane/src/projection.rs:738-877 | a plan owns what it stamped; every later generation does, whatever hash it expects; no earlier one does |
| `Stamps.OwnsExactly` | crates/control-plane/src/projection.rs:738-797 | for any live tags whatever, who owns them: managed-by label and both IDs match, and the generation label parses and is earlier, or the same with the expected hash if one is expected |
| `Stamps.OwnershipGrows` | crates/control-plane/src/projection.rs:762-783 | for any live tags whatever, a later generation of the same materialization owns what an earlier one owns |
| `Stamps.HashStable` | crates/control-plane/src/projection.rs:816-891 | stamping a hash in does not change the hash of the object |
| `Stamps.StampTwice` | crates/control-plane/src/projection.rs:141-146 | stamping is idempotent |
| `Stamps.StampKeeps` | crates/control-plane/src/projection.rs:799-877 | stamping leaves the reference and every other label and annotation alone, on the object and its pod template |
| `Stamps.Classify` | crates/control-plane/src/projection.rs:701-736 | missing exactly when nothing is there; the identity and policy are those seen; unowned exactly when the stamp does not match; owned and standing exactly when it does and is not being deleted |
| `Planning.StableSortUnique` | crates/control-plane/src/materializer.rs:675-679 | the sorted objects are the one sequence that is sorted by apply order and keeps every group in its given order |
| `Planning.OrderedPermutes` | crates/control-plane/src/materializer.rs:675-679 | sorting loses and repeats no object and no reference |
| `Planning.GroupOrdered` | crates/control-plane/src/materializer.rs:275-315 | walking the sorted objects group by group walks each group in manifest order |
| `Planning.ValidateRefs` | crates/control-plane/src/materializer.rs:699-762 | accepts exactly the reference lists whose every reference is valid and that have no duplicate |
| `Planning.ValidateGenerations` | crates/control-plane/src/materializer.rs:861-940 | accepts exactly the manifests whose every object and pod template carries the announced generations |
| `Planning.RenderedRefs` | crates/control-plane/src/materializer.rs:661-673 | succeeds exactly on manifests that pass both checks, with the references in apply order |
| `Plans.StampedRenderable` | crates/control-plane/src/projection.rs:137-148 | after stamping, the checks pass exactly when the manifest was for the projection generation (if not empty), announced its template generation and has good references |
| `Plans.FromManifest` | crates/control-plane/src/projection.rs:137-186 | planning succeeds exactly on those manifests, and then yields the stamped manifest and each reference with the stamp of its own object; the lookup it unwraps cannot fail |
| `Plans.PlanIsFaithful` | crates/control-plane/src/projection.rs:137-186 | the plan lists exactly the manifest's references, in apply order, pairwise distinct; each expected stamp owns its own stamped object; the generation of a non-empty manifest is the projection generation |
| `Plans.CleanupOwnsProjection` | crates/control-plane/src/projection.rs:188-212 | the cleanup plan of a row that recorded a projection, at its generation or later, lists its references and owns every object it stamped |
| `Plans.DeleteOrderPermutes` | crates/control-plane/src/materializer.rs:681-693 | the delete order is a permutation of the references |
| `Plans.WorkloadsDeletedLast` | crates/control-plane/src/materializer.rs:681-697 | every workload is deleted after everything that is not one |
| `Plans.DeletedInReverse` | crates/control-plane/src/materializer.rs:681-693 | within each group, later references are deleted first |
| `Cluster.LandingJustified` | crates/control-plane/src/kube_materializer.rs:117-225 | a mutation licensed by an inspection before it was attempted, landing at any later time, creates an absent name or changes exactly what was inspected, which its plan owns |
| `Cluster.LandingsWithinAttempts` | crates/control-plane/src/materializer.rs:522-554 | of each request, no more took effect or may still take effect than were attempted |
| `Cluster.Cluster.Send` | crates/control-plane/src/kube_materializer.rs:117-225 | one call: the cluster is at every point what others' scripted changes and the landings made of it; success means the last of these is this call making of the cluster what it asks for, or that it found nothing to delete; any error means it has not come about, and one the client does not call uncertain that it never will |
| `Cluster.Cluster.Mutate` | crates/control-plane/src/materializer.rs:522-554 | a mutation under the retry loop, with anything happening between its dispatches: it comes about at most once over all dispatches and later arrivals; success means that the last thing to happen to the cluster is this mutation or, for a delete, that the object is absent; an uncertain result is the last dispatch; any other error means it never comes about; and the answer is on record, never taken back |
| `Cluster.TookHappened` | crates/control-plane/src/kube_materializer.rs:117-225 | a mutation is on the list of landings exactly if at some point it made of the cluster what it asks for |
| `Cluster.OkMeansTook` | crates/control-plane/src/kube_materializer.rs:117-166 | of creates and patches, an answer of success means that at some point they made of the cluster what they ask for, for every stretch of the log and at every later time |
| `Projection.Inspect` | crates/control-plane/src/projection.rs:423-446 | on success one classified observation per planned object, in plan order, each of a version that existed; it attempts nothing |
| `Projection.NoConflictsMeansOwned` | crates/control-plane/src/projection.rs:482-498 | nothing is rejected exactly when the plan owns everything seen |
| `Projection.ApplyLicensed` | crates/control-plane/src/materializer.rs:419-438 | having seen only what it owns, a plan's every apply request names an absent object or a version it owns |
| `ProjectionLaws.RequestExactly` | crates/control-plane/src/materializer.rs:419-438 | every object of the manifest is created if it was not seen, and patched in exactly the version seen otherwise |
| `Projection.ApplyManifest` | crates/control-plane/src/materializer.rs:266-327 | for every failure point, what was done is a prefix of one fixed trace, the error names the failing step and exactly the objects applied before it, all of which took effect, while the failing one never does unless its outcome is uncertain; success means that every request of the trace took effect |
| `Rollout.TraceRefs` | crates/control-plane/src/materializer.rs:266-327 | that trace attempts every reference once, in the recorded order |
| `Rollout.AppliedIsPrefix` | crates/control-plane/src/materializer.rs:469-489 | what an error reports as applied, followed by the failing object, starts the recorded references |
| `Rollout.ClaimsBoundFirst` | crates/control-plane/src/materializer.rs:287-326 | when anything but a volume or claim is attempted, every claim of the manifest has been seen bound |
| `ProjectionLaws.LandedIsOwned` | crates/control-plane/src/projection.rs:137-186 | whatever stood there before, what a request of the plan makes of an object is owned by the plan and says what the manifest says |
| `Rollout.Apply` | crates/control-plane/src/projection.rs:500-520 | nothing is attempted unless the plan owns everything it saw; then the trace is followed, and success and errors mean what they mean above; an error before that names what is missing or foreign; if nobody else acts and every request finds what it expects, it succeeds |
| `Teardown.OwnedHasIdentity` | crates/control-plane/src/projection.rs:586-594 | an owned observation always has the identity that deletion unwraps |
| `Teardown.DeleteLicensed` | crates/control-plane/src/projection.rs:578-605 | every delete request names a version that was seen and owned, and for a volume one with its storage retained |
| `Teardown.Check` | crates/control-plane/src/projection.rs:539-577 | the checks before deletion attempt nothing and pass only if everything seen is owned, every volume is retained and the bindings were verified |
| `Teardown.Settle` | crates/control-plane/src/projection.rs:607-634 | success means every reference was seen missing and no descendants were found |
| `Teardown.DeleteOwned` | crates/control-plane/src/projection.rs:539-635 | no delete is attempted unless the checks passed; then exactly the owned, standing objects are asked for, in delete order, each only after the one before was answered with success; success means that after the last request everything was seen missing; if nobody else acts, the checks pass and nothing is left in the end, it succeeds |
| `ProjectionLaws.DeletesExactly` | crates/control-plane/src/projection.rs:578-605 | a completed deletion asks for exactly the versions it saw standing and owns, once each, in delete order; nothing it owns is passed over |
| `CalmProjection.CalmApply` | crates/control-plane/src/projection.rs:500-520 | without others, every planned manifest is applied wherever nothing foreign is in its way; in the end all its objects stand, owned by the plan, unless they were on their way out, and nothing else has changed |
| `CalmProjection.CalmDelete` | crates/control-plane/src/projection.rs:539-635 | without others, a plan that may delete what it sees, with nothing holding it, deletes all of it and nothing else |
| `CalmProjection.ThereAndBack` | crates/control-plane/src/projection.rs:137-212 | without others, projecting a manifest with retained storage into free names and tearing down what the row recorded, at the same or a later generation, both go through and leave the cluster as it was under every name |
| `Teardown.PerformAll` | crates/control-plane/src/projection.rs:500-635 | for every sequence of apply and delete jobs of any plans, under every interference, lost call, retry and late arrival: whatever changed under any name was changed by others, or by a mutation of ours that found exactly what stood there, was attempted, came about once, and created an absent name or changed the version inspected before the attempt, which its plan owns; a volume was deleted only if retained; an object that no plan acting on it owns and others spare is in the end what it was; and no request came about more often than attempted |
| `Teardown.UnclaimedStays` | crates/control-plane/src/projection.rs:482-498 | between any two points, what no plan acting on it owns and nobody else touches stays as it is |
| `LifecycleLaws.StepKeeps` | crates/control-plane/src/postgres/lifecycle_ops.rs:19-304 | every transaction keeps the history rooted in the transition table, every row stamped with the generation it belongs to, a Ready row projected at its own generation and a Pending one at the next |
| `LifecycleLaws.RunKeeps` | crates/control-plane/src/postgres/lifecycle_ops.rs:19-304 | hence every run of transactions does, from the empty store on |
| `LifecycleRuns.GenerationsOrderRecords` | crates/control-plane/migrations/0008_durable_lifecycle_intent.sql:37-58 | over every run a later record has a later generation or is the same record, even across deletion and re-creation |
| `LifecycleRuns.ChangeIsNew` | crates/control-plane/src/postgres/instance_ops.rs:217-274 | any change of the record gives it a generation never used before |
| `LifecycleRuns.OnlyFrom` | crates/control-plane/src/instance.rs:83-154 | what each recorded state can have been one generation before |
| `LifecycleRuns.DrainingCameFromRunning` | crates/control-plane/src/instance.rs:83-154 | Draining at g was Running at g - 1 |
| `LifecycleRuns.ColdCameFromDrain` | crates/control-plane/src/instance.rs:83-154 | Cold at g is not a creation exactly when the instance was Running at g - 2 and Draining at g - 1 |
| `LifecycleRuns.MismatchAnswerHonest` | crates/control-plane/src/idle.rs:156-176 | a retried report for e is told already-draining exactly when that sleep is the current drain; the accepted answer is true exactly when the Cold record is not a creation, which rows tell: exactly when the instance has a row |
| `LifecycleRuns.AcceptedExactlyWithRows` | crates/control-plane/src/idle.rs:156-176 | over every run without a disturbing compare-and-swap, a report answered accepted slept exactly if the instance has a row |
| `LifecycleRuns.RunUndisturbed` | crates/control-plane/src/postgres/lifecycle_ops.rs:19-304 | over every such run, deferred wakes are current, pending work belongs to the wake in progress, and only creations have no row |
| `LifecycleRuns.RecreationLooksAsleep` | crates/control-plane/src/idle.rs:156-176 | counterexample, for every running instance: delete and re-create it, and a report for its old generation is answered accepted though it never slept |
| `LifecycleRuns.RunningIsReached` | crates/control-plane/src/idle.rs:156-176 | such an instance is reached from the empty store by creating, waking, claiming and completing, and then gives the false answer |
| `LifecycleRuns.ClaimMovesOwnCycle` | crates/control-plane/src/postgres/materialization_ops.rs:931-1022 | whatever a driver does under a claim, completing, finalizing or failing, moves the instance only out of the wake or drain its row was stamped for, under the newest claim and with no effect unresolved |
| `LifecycleRuns.FinalizesOwnDrain` | crates/control-plane/src/postgres/materialization_ops.rs:515-539 | any step, bare compare-and-swap aside, by which an instance leaves its drain other than into deletion is the finalization under the newest claim of the row stamped for exactly that drain |
| `LifecycleRuns.CompletesOwnWake` | crates/control-plane/src/postgres/materialization_ops.rs:489-513 | any step, bare compare-and-swap aside, from Waking to Running is the completion under the newest claim of the row stamped for exactly that wake |
| `LifecycleRuns.FailsOwnWake` | crates/control-plane/src/postgres/runtime_work.rs:101-171 | any step, bare compare-and-swap aside, from Waking to Failed is a terminal failure recorded under the newest claim of the row stamped for exactly that wake |
| `LifecycleRuns.OnlyNewestClaimActs` | crates/control-plane/src/postgres/materialization_ops.rs:931-1022 | nothing succeeds under any claim but the newest live one of the row, on the stamp it was issued for |
| `LifecycleRuns.ClaimsNeverRepeat` | crates/control-plane/src/postgres/materialization_ops.rs:373-419 | no attempt number on a stamp is issued twice, not even after deletion and re-creation restarted the counter |
| `LifecycleRuns.PendingNeverDetached` | crates/control-plane/src/reconciler.rs:421-447 | however the run goes on after a Pending row was read, it is never found on an instance of its generation that is neither waking nor being deleted |
| `LifecycleRuns.DebrisStaysDebris` | crates/control-plane/src/reconciler.rs:511-535 | a Deleting row whose drain is not current stays debris for every later state |
| `LifecycleRuns.WakeChoiceStands` | crates/control-plane/src/wake.rs:195-204 | if the generation is still the one read, so is the state, and the chosen waking generation is the one the store expects |
| `LifecycleRuns.DrainHandsOver` | crates/control-plane/src/postgres/lifecycle_ops.rs:172-215 | ending a drain succeeds exactly when the lease holds on its row and any deferred wake is the one it turns into, and starts that wake in the same transaction |
| `LifecycleRuns.StepDeferred` | crates/control-plane/src/postgres/lifecycle_ops.rs:19-304 | a step keeps a deferred wake current exactly if it is no successful bare compare-and-swap |
| `LifecycleRuns.RunDeferred` | crates/control-plane/src/postgres/lifecycle_ops.rs:19-304 | over every run with no such step while a wake is deferred, a deferred wake belongs to the current drain |
| `LifecycleRuns.SwapsStrandWake` | crates/control-plane/src/postgres/instance_ops.rs:217-274 | counterexample: three compare-and-swaps take a draining instance to another drain, whose every finalization the stranded wake then blocks |
| `LifecycleMoves.MovesExactly` | crates/control-plane/src/postgres/lifecycle_ops.rs:19-304 | where each transaction, bare compare-and-swap aside, takes the record: every move of the instance is made by one kind of transaction exactly under its condition on record, row, lease and effect, and nothing else moves it |
| `LifecycleProgress.RunSane` | crates/control-plane/src/postgres/lifecycle_ops.rs:19-304 | over every orderly run, a wake has its Pending row, a running instance its Ready one, a drain its Deleting one, and otherwise only cleanup is left |
| `LifecycleProgress.OrderlyExactly` | crates/control-plane/src/postgres/materialization_ops.rs:541-665 | a step takes that row away exactly if it marks it deleted while the instance needs it |
| `LifecycleProgress.NeverStuck` | crates/control-plane/src/postgres/lifecycle_ops.rs:19-304 | wherever an orderly run has led, orderly runs lead on to an instance running on any target, to one asleep with nothing left, and to none at all |
| `LifecycleProgress.CutStrands` | crates/control-plane/src/postgres/materialization_ops.rs:608-665 | counterexample: once the row an instance needs is marked deleted, by an operator or by the holder of its lease, no run without a deletion request or bare compare-and-swap ever moves the instance |
| `LifecycleFence.StepFenced` | crates/control-plane/src/postgres/materialization_ops.rs:133-1528 | every transaction keeps at most one active row, no lease or effect on a finished one, and rows in teardown behind the instance |
| `LifecycleFence.RunFenced` | crates/control-plane/src/postgres/materialization_ops.rs:133-1528 | hence every run does |
| `LifecycleFence.EffectBarsRun` | crates/control-plane/src/postgres/materialization_ops.rs:1466-1528 | from the begin of an effect until its exact acknowledgement or an operator override, over every run, nobody can claim, complete, finalize or replace the row |
| `LifecycleActors.ReportIdle` | crates/control-plane/src/idle.rs:78-259 | with anything happening between its store calls: a positive answer for e shows the record as it stands, and means the sleep of e happened with no wake since, or that the record is a creation, which without bare compare-and-swap is exactly when it has no row; a sleep begins only for a verified report of a mature row; every error has its cause in the store; without others, the answer and the new store are determined case by case |
| `LifecycleActors.WakeInstance` | crates/control-plane/src/wake.rs:106-251 | with anything happening between its store calls: an accepted wake is the one the record read at that generation calls for, in the store with a Pending row of the target, or deferred for the target; without bare compare-and-swap, at exactly the chosen generation; every error has its cause in the store; without others, the answer and the new store are determined case by case, so a Cold, Failed or Draining instance is never refused but for unfinished cleanup or a wake for another target |
| `LifecycleDrivers.DrivePending` | crates/control-plane/src/reconciler.rs:421-509 | a driver that reports success made every request of its row's own plan, all of which took effect, then saw every object owned and standing, and moved exactly the wake its row was stamped for to Running; the detached-row error is unreachable; errors of rendering, planning and stale references occur only for that reason; without others a holder's wake goes through wherever its plan can be applied, and a row whose wake is over is cleaned up |
| `LifecycleDrivers.DriveDeleting` | crates/control-plane/src/reconciler.rs:511-597 | a driver that reports a finished drain saw every recorded object missing and finished exactly the drain its row was stamped for; without others, if everything recorded may go, the drain ends, in sleep or in the wake that waited for it, or the row is marked if its drain is not the instance's |
| `LifecycleDrivers.ProjectPlan` | crates/control-plane/src/reconciler.rs:459-482 | success means every request of the plan took effect, its backend was ready, and every object was then seen owned and standing; without others that is so wherever the plan can be applied and stands then |
| `LifecycleDrivers.GiveUp` | crates/control-plane/src/reconciler.rs:294-340 | a failure is recorded, terminal exactly if permanent or past the deadline, unless the lease was lost or the job cancelled; if recording did not consume the lease it is released; in every case the driver then no longer holds the row, unless an unresolved effect keeps it |
| `LifecycleDrivers.HolderIsHeard` | crates/control-plane/src/postgres/runtime_work.rs:101-171 | recording a failure is never refused to a driver that still holds the row in the state it claimed it in |
| `LifecycleDrivers.ClaimAndReconcile` | crates/control-plane/src/reconciler.rs:247-341 | the whole job, from claim over cluster work and renewal to commit or recorded failure, with the guarantees of the drivers and of giving up; a wake is projected at the generation it will run at; however the job ends, it lets go of the row; without others every row that may be claimed is, and is driven as above |
| `FencedCalls.FencedMutate` | crates/control-plane/src/reconciler/fenced_client.rs:47-169 | one fenced mutation, with replies of the store lost, the driver cancelled at any point and others at the store throughout: the cluster is asked only under the newest claim of the row with no other effect unresolved; success means it came about and was acknowledged; an error that is not uncertain means that it never does, unless somebody else resolved the effect; whenever it may still be on its way the answer is uncertain and its mark has kept everybody off the row, unless somebody resolved it since; and the call is a sequence of the moves below that keeps to their protocol, with an arrival exactly if the mutation came about; without others and without mishaps a holder's mutation that finds what it expects goes through and leaves no mark |
| `FencedRuns.CallsAreMoves` | crates/control-plane/src/reconciler/fenced_client.rs:47-169 | any interleaving of calls that keep to the protocol is a run of these moves: it makes of the store what the transactions behind them make of it, and leaves each mutation in the phase of its last move unless its begin was refused |
| `FencedRuns.NextGuarded` | crates/control-plane/src/reconciler/fenced_client.rs:47-169 | a step of any driver or of anybody else keeps every unresolved mutation marked on its row, under the row's newest claim, exactly if it is no operator override of such a row |
| `FencedRuns.OneMutationInFlight` | crates/control-plane/src/reconciler/fenced_client.rs:47-169 | in every interleaving of any number of drivers, with leases expiring and answers lost at any point, at most one mutation for the instance is in flight or otherwise unresolved, unless an operator overrides one |
| `FencedRuns.OverrideLetsTwoFly` | crates/control-plane/src/postgres/materialization_ops.rs:608-665 | counterexample: after an override of the row and re-creation of the instance, two mutations for one row are in flight |
| `Generations.StaleDriverOwnsNothingNewer` | crates/control-plane/src/projection.rs:738-797 | a driver of an earlier wake owns nothing a later wake stamps, and the later one owns what the earlier left, over every run between the two |
| `Scheduler.AdmitKeeps` | crates/control-plane/src/reconciler.rs:150-161 | a scan never exceeds the capacity, nor capacity - 1 wakes, drops no running row and starts only listed ones |
| `Scheduler.AdmitFair` | crates/control-plane/src/reconciler.rs:150-161 | a listed row without a job after the scan was left out because nothing more of its kind fits |
| `Scheduler.CleanupNotStarved` | crates/control-plane/src/reconciler.rs:150-161 | a row to clean up waits only while the scheduler is full with at least one job that is not a wake |
| `Scheduler.JobScheduler.Scan` | crates/control-plane/src/reconciler.rs:150-161 | the loop over a listing computes exactly that admission, with one job per active row; then every listed row has a job or there is no room for it, at max(limit, 2) jobs of which all but one may be wakes, which is never exceeded |
| `Scheduler.JobScheduler.Join` | crates/control-plane/src/reconciler.rs:134-139 | a finished job frees exactly its own row |
| `Scheduler.JobScheduler.RunUntilShutdown` | crates/control-plane/src/reconciler.rs:116-166 | for every sequence of wakeups rows and jobs are what handling them in turn makes of them, and the invariant holds throughout; the loop ends only on shutdown, a crashed job, a failed deletion sweep, or the fifth failed listing with none in between that succeeded; every state keeps within max(limit, 2) jobs, all but one of them wakes, and after every listing a listed row without a job was left out for want of that room |
| `Scheduler.RunInOrder` | crates/control-plane/src/reconciler.rs:116-166 | over every run there is one job per active row, never more than the capacity, nor more than capacity - 1 wakes |
| `Scheduler.RunNotStarved` | crates/control-plane/src/reconciler.rs:150-161 | at any point of a run, a listed row to clean up has a job after its listing, or the scheduler is full with a job that is not a wake |
| `Scheduler.RunStartsAndEnds` | crates/control-plane/src/reconciler.rs:134-161 | a job starts only by a listing of its row, in the listed state, and ends exactly by its own end |

## Left out

- Sequence number and instant overflow in the cache: both are naturals; reaching 2^64 insertions is out of scope.
- `insert_positive`, `len`, `positives`, `negatives` and the subscription event loop around `apply_update`: they only add easy members.
- The FNV hash and JSON rendering: the hash is any function of the object without its hash annotation.
- Truncation of reasons and finalizer lists kept for logs.
- Readiness waits and inspection, EndpointSlices, descendant listing and binding verification: their answers are arbitrary inputs.
- Retried reads: a read is one call, since the interference before it may be any number of turns.
- LifecycleDrivers.ClaimAndReconcile: the begin and acknowledgement of each effect are not woven into its mutations, so a mutation refused by the fence, or reported as an error because somebody else resolved its effect, is not among its failures; `FencedCalls.FencedMutate` states the fence for one mutation and `FencedRuns` for all drivers together, where no two mutations have the same claim and effect number.
- LifecycleDrivers.DrivePending: rendering is a parameter, and readiness an arbitrary answer.
- `apply_manifest` and `delete_rendered_objects` without a plan: they inspect just before each step and add nothing to the protocol.
- Other instances, exclusivity keys, backend generations of rows, idempotency records, retired IDs, route bindings and audit events of the store: transactions they make fail change nothing, which the model covers by leaving the transaction out of the run.
- Lifecycle times: drain grace, back-off, deadlines and lease expiry are chosen freely by the run (`due`, `mature`, `terminal`, `OpExpireLease`).
- `record_materialization` and the lease-free `complete_wake` and `finalize_sleep`: nothing in production calls them. Bare compare-and-swap has no production caller either but is part of the runs; where it breaks a law, the row says exactly when.
- Heartbeats during cluster work, cancellation outside the fence, and the order in which the async runtime polls.
- `run_once`, jitter, observability, error texts, configuration, authentication, TLS and transport.
- The sleep policy and workload class checks of idle reports and wakes: they only refuse, and refusing changes nothing. The membership check of a report is the parameter `verified`.
- A postponed sleep reports no remaining time.
