# Docker maintenance: a verified model

The repository shares one Docker daemon between many CI jobs and an exclusive, unattended cleanup. This project
models, in Dafny, the two places where a mistake is expensive, and the arithmetic and text they depend on:

* **Admission.** Jobs and maintenance runs coordinate through two kernel locks, which vanish with the process that
  holds them, and through durable records, which do not. `Admission` is the step machine: every file or lock operation
  of a job, a maintenance run and a reconciliation is one step of one of any number of coordinators; each coordinator
  may die after any step; and the work it started (a process group, an apply container with a request in flight) goes
  on without it. Replacing a record leaves its lock on the old file. `AdmissionInvariant` is what every step keeps,
  `AdmissionSafety` is what holds over every run, and `AdmissionRace` is about the one exception to stickiness: a
  complete run that shows it, and the exact condition under which it happens. `Coordinators` contains the three
  programs themselves, with loops, exceptions and pauses in which others act or the program dies; each of their
  executions is shown to be a run of the step machine.
* **The live lease.** `Lease` interleaves the lease server's separate reads, the guard's polling and the executor's
  requests.
* **The cleanup process.** `Engines` holds the daemon as an object that may change between any two requests, and the
  client whose every request is logged with what became of it. `Inventories`, `Cache`, `Cleanup` and `Retirement` are
  the staged loops over it: inventory, build cache, plan and apply, retirement of version tags. `Policy` decides about
  single objects, `CacheRules` about requests to the build cache, `Usage` says which images and networks a container
  refers to, and `Plans` says once, about a whole inventory, what a cleanup removes. `Completion` has both processes,
  cleanup and retirement, from start to exit code, together with the host's acceptance of a report. `Handover`
  connects them to the step machine.
* **Arithmetic and text.** `References` (normal form of image references), `FilterText` (the pattern that selects
  cache records), `Quantities` (durations and sizes), `Storage` (host measurement and pressure), over `Text`
  (splitting and joining), `Wrappers` and `Runs`.

## Reading the model

Objects the source updates in place are classes (`Coordinators.Host`, `Engines.Daemon`, `Engines.Engine`,
`Inventories.Inventory`, `Cache.BuildCache`, `Cleanup.Report`, `Retirement.TagReport`), and its loops are loops.
Metadata arrives as optional values: nothing stands for a value that is missing or of the wrong type, so the source's
refusals are branches and not preconditions. A method that can fail returns a `Result`; `Engines.Stop` has the exit
codes, the status answers, and death without an exit code.

A status answer to a deletion counts as a known outcome, as it does in the source, although the daemon may have acted
before it answered; only 404 and 409 mean that nothing happened. A status answer to a prune counts as unknown.

Every request of the cleanup process ends in an arbitrary outcome: lost, answered with a status, expired, too long,
garbled, or answered. A flag on the daemon, `quiet`, says that nobody else changes it. Everything about outcomes,
order and exit codes holds with any interference; statements about what disappears are made for quiet daemons, where
replies may still be lost and removals may still be refused.

The client's log is the witness for what is said under interference. A read is logged with the object or list it asked
for and with what the daemon was when it answered; only an answer to the matching question counts as having read an
object. A deletion is logged with its basis: the metadata it was decided on, the containers that were looked at, the
protected images, and since which log position they were read. A cache request is logged with the usage it was made
from. The log shows that each of these was what the daemon answered, the containers and protected images after the
last deletion, and that the decision on this basis was to delete.

Loops over inventories take their objects in any order, which includes the source's sorted order.

## What the results say

* **Exclusion.** In every reachable state no job works on the daemon while an apply container does, because work that
  may still run always has its record on disk (`AdmissionSafety.WorkNeverOverlaps`).
* **Nothing is lost.** A record leaves the disk only after a known completion by its owner, after a refusal without
  authority, or after an audit (`AdmissionSafety.NothingLost`).
* **Uncertainty is sticky, with one exception.** An unresolved record blocks everybody until it is reconciled, except
  a job that had already probed it inside its own critical section (`AdmissionSafety.UncertaintyIsSticky`). The
  exception is real: `AdmissionRace.AdmittedPastADeadOwner` is a run in which an owner dies between the probe and the
  grant. `AdmissionRace.OvertakingExactly` says when it happens: a job can still be granted authority without a
  reconciliation of the record if and only if it has probed that record and nothing it has yet to probe is stuck. By
  `AdmissionSafety.PassedHoldsAdmission` that is one job at most, the holder of the admission lock, and the record is
  a registration that still says active and whose owner is dead; past any other unresolved record nobody is granted
  authority (`AdmissionRace.NobodyOvertakesMarked`).
* **A revoked lease is worth at most one more request** (`Lease.AtMostOneAfterRevocation`).
* **Unknown outcomes stop the run and reach the host.** A mutating request whose outcome stays unknown is the last
  request of the run; the run ends with code 6 or without a result, and no part of its report is accepted by any host
  (`Completion.Run`, `Completion.RunRetirement`). `Handover.AcceptedExitIsOver` derives from this what the step
  machine assumes when a container's exit is accepted.
* **Nothing is deleted on old data.** Whatever others do meanwhile, each deletion directly follows a lease check, and
  before that a read of the object; for networks and images all containers, and for images all protected references,
  were read since the last deletion; and on what these reads returned the decision is to delete (the `Guarded` log of
  `Completion.Run` and `Completion.RunRetirement`). The same log says of each cache request that it directly follows a
  lease check and before that an answer of the cache usage, that it names only records which may go by that answer,
  and that it is either aged or made over budget. No request follows an observation that was not accepted
  (`Cache.BuildCache.Prune`).
* **The plan predicts the apply.** Both are stated against the same set `Plans.Planned` of the initial inventory. What
  an apply removes is always part of the plan, however it ends; without a refusal it removes exactly the plan,
  although it works in stages, filters on snapshots and rechecks (`Cleanup.Apply`, `Cleanup.Plan`). Since the planned
  set mentions no filter, the filters change nothing but the number of requests. That is bounded, and an object that
  the filters exclude, be it by its decision or by the profile, costs none.
* **A dry run of version retirement reports what an apply removes**, although each removal changes the aliases that
  the next decision looks at (`Retirement.RemoveVersions`).
* **Losing aliases can cost an image its eligibility.** The shared safety check only gets easier when an image loses
  aliases, but the retention decision does not: an image can lose its only claim to be in scope, or turn from tagged
  into dangling and be too young for that. `Policy.AliasLossCanExclude` shows both, and
  `Policy.RetentionAfterAliasLoss` gives the exact condition. Plan and apply are not affected, because cleanup removes
  whole images.
* **Normal forms are stable up to 512 characters.** A normalized reference reads back as itself exactly when it is
  short enough to be read at all (`References.ReferenceNameIsNormalForm`). Beyond that a decision about the image ends
  the run (`Policy.UnreadableImage`), and there are such images (`Policy.LongNameEndsRun`).

## Model

| member | source | states |
|---|---|---|
| AdmissionSafety.RunningWorkHasRecord | scripts/ci_docker_gate.py:353-444 | in every reachable state, work that may still change the daemon has its record, and a working apply container is named by the maintenance record while no job record exists |
| AdmissionSafety.WorkNeverOverlaps | scripts/ci_docker_gate.py:353-444 | job work and an apply container never run at once, and at most one apply container runs, under any interleaving and any crashes |
| AdmissionSafety.ExclusiveMeansAlone | scripts/ci_docker_gate.py:423-444 | while a granted run holds the activity lock, also after its record is removed, there is no job record and no other live lease |
| AdmissionSafety.ExclusiveWindow | scripts/ci_docker_gate.py:416-444 | from the grant to the release of the activity lock no job record appears and nobody else is granted authority |
| AdmissionSafety.OwnRecordIsFound | scripts/ci_docker_gate.py:302-307 | a coordinator about to remove its record finds it under its own identifier |
| AdmissionSafety.NothingLost | scripts/ci_docker_gate.py:302-307 | between a state with a record and one without, one step removed it for a known completion, a refusal without authority, or with its audit written |
| AdmissionSafety.RecordLeavesExplained | scripts/ci_docker_gate.py:388-399 | any step that makes a record disappear does so for one of the three reasons, with its work over |
| AdmissionSafety.UnresolvedStays | scripts/ci_docker_gate.py:320-337 | no step but a reconciliation naming it resolves a record that is uncertain or whose owner is dead |
| AdmissionSafety.UncertaintyIsSticky | scripts/ci_docker_gate.py:363-370 | over any run without a reconciliation naming it, an unresolved record stays so, no job comes to pass it, and nobody gains authority except a job that had passed it already |
| AdmissionRace.OvertakingExactly | scripts/ci_docker_gate.py:363-381 | some continuation without a reconciliation of the record grants a job authority if and only if the job has passed the record and nothing it has yet to probe is stuck |
| AdmissionRace.NobodyOvertakesMarked | scripts/ci_docker_gate.py:363-375 | no continuation without its reconciliation grants anybody authority past an unresolved maintenance record or a registration marked uncertain |
| AdmissionRace.NoAuthorityBeforeLease | scripts/ci_docker_gate.py:371-382 | a job has no authority before its registration is written and locked |
| AdmissionSafety.PassedHoldsAdmission | scripts/ci_docker_gate.py:363-375 | that exception holds the admission lock, and concerns a registration marked active whose owner is dead |
| AdmissionRace.AdmittedPastADeadOwner | scripts/ci_docker_gate.py:364-375 | a full run in which a job is admitted past a registration whose owner died after it was probed |
| AdmissionSafety.MaintenanceTouchesOwnRecordOnly | scripts/ci_docker_gate.py:402-444 | no step of a maintenance run, refused or not, changes or removes a record of somebody else |
| AdmissionSafety.RevokedRecordNeverReturns | scripts/ci_docker_gate.py:76-90 | once a granted run's record is no longer the active one, it never becomes active again |
| AdmissionSafety.RemovedStaysRemoved | scripts/ci_docker_reconcile.py:125-138 | a record removed after its coordinator died never comes back, and its audit stays |
| AdmissionInvariant.StepKeepsInv | scripts/ci_docker_gate.py:353-444 | every step keeps the invariant that ties locks, records, phases and running work of all coordinators to each other |
| AdmissionInvariant.RunKeepsInv | scripts/ci_docker_gate.py:353-444 | the invariant holds at every point of every run |
| AdmissionInvariant.RemoveRecordKeepsInv | scripts/ci_docker_reconcile.py:132-138 | removing the record of a dead coordinator keeps the invariant, given truthful evidence |
| Coordinators.Host.RunJob | scripts/ci_docker_job.py:81-160 | however a job ends, crash included, its record is there and unresolved or its work is over; a job that lives to its end leaves its record exactly when its outcome is unknown |
| Coordinators.Host.Admit | scripts/ci_docker_gate.py:363-387 | the waiting loop ends with the job registered and locked, or with the process gone |
| Coordinators.Host.SettleJobRecord | scripts/ci_docker_gate.py:390-399 | a job that lives to its end has removed its record on a known outcome and left it marked uncertain otherwise; where admission cannot be had the process ends and the record stays |
| Coordinators.Host.RunMaintenance | scripts/ci_docker_maintenance.py:384-520 | however a maintenance run ends, its record is there and blocks admission, or no apply work is left |
| Coordinators.Host.ClaimLease | scripts/ci_docker_gate.py:424-435 | with the activity lock held, authority is granted or the run is refused, never both |
| Coordinators.Host.AwaitContainer | scripts/ci_docker_maintenance.py:455-521 | once the start is sent, the outcome is known only when the container has exited and its report was accepted |
| Coordinators.Host.Reconcile | scripts/ci_docker_reconcile.py:63-140 | a finished reconciliation leaves an audit and no record, and that stays; a container that was created, or exited, and does not run is no obstacle |
| Lease.AuthorityBindsOneProcess | scripts/ci_docker_gate.py:71-109 | over a server's life at most one process is told that the lease is active, and never with pending |
| Lease.CheckReturnsOnlyWhenLive | images/utils/ci_utils/guard.py:40-55 | the guard returns only on a reply for its own process, computed from reads, made one after the other after it asked, of an active record, an uncompleted lease and a deadline not yet past |
| Lease.AtMostOneAfterRevocation | images/utils/ci_utils/guard.py:28-55 | after completion, expiry, death or a changed record at most one more mutating request is sent, in every interleaving |
| Lease.NobodyLetThroughMeansNoMore | images/utils/ci_utils/engine.py:238-249 | if nobody was let through or half-answered at the revocation, none is sent |
| Lease.ChancesOnlyShrink | scripts/ci_docker_gate.py:76-102 | after a revocation no step creates a chance to send, and sending uses it up |
| Engines.Engine.Exchange | images/utils/ci_utils/engine.py:70-122 | once a mutation was started, every failure but a status answer has code 6 |
| Engines.Engine.CheckLease | images/utils/ci_utils/guard.py:28-55 | polling ends with success only on a reply for this run that is active and not pending; failures have code 6 after a mutation and 4 before |
| Engines.Engine.Guard | images/utils/ci_utils/guard.py:28-55 | a passed lease check is logged, and a failed one logs nothing |
| Engines.Engine.Approach | images/utils/ci_utils/engine.py:224-238 | no mutation is sent without a good argument, a verified daemon, a live lease and time left; a run stopped here has sent nothing more |
| Engines.Engine.RemoveObject | images/utils/ci_utils/engine.py:224-249 | each deletion directly follows a lease check and a fresh basis on which it is allowed, and is logged with both; a reply means the object is gone, 404 and 409 that nothing happened, and a lost reply ends the run with code 6 |
| Engines.Engine.RemoveReference | images/utils/ci_utils/engine.py:224-249 | the same for the removal of one tag |
| Engines.Engine.PruneCache | images/utils/ci_utils/engine.py:172-222 | each request directly follows a lease check and the usage read it was made from; only submitted records can disappear; every failure after sending, status answers included, has code 6 |
| Engines.AfterOneMore | images/utils/ci_utils/cleanup.py:431-463 | the daemon after a set of deletions and one more is the daemon after the larger set |
| Policy.StrippedName | images/utils/ci_utils/policy.py:319-323 | all leading slashes of a container name go, and nothing else |
| Policy.ContainerEligibility | images/utils/ci_utils/policy.py:294-327 | exactly which containers are eligible: owned, unprotected, no builder, stopped, old enough, with readable metadata |
| Policy.NetworkEligibility | images/utils/ci_utils/policy.py:330-350 | exactly which networks are eligible |
| Policy.ImageEligibility | images/utils/ci_utils/policy.py:353-422 | exactly which images are eligible: no name protected, none outside the scope, one tag at most, old enough for its kind |
| Policy.ProfileAllows | images/utils/ci_utils/cleanup.py:292-301 | exactly when profile and pressure allow an image to go |
| Policy.UnreadableImage | images/utils/ci_utils/policy.py:379-391 | a decision ends the run exactly when an alias with a normal form over 512 characters comes before any protected one |
| Policy.LongNameEndsRun | images/utils/ci_utils/policy.py:379-391 | there is an image whose only tag is a valid reference and about which any decision that gets to its names ends the run |
| Policy.ImageEligibilityShrinks | images/utils/ci_utils/policy.py:353-422 | eligibility only shrinks as referenced or protected images grow |
| Policy.NetworkEligibilityShrinks | images/utils/ci_utils/policy.py:330-350 | eligibility of a network only grows as references and attached containers go |
| Policy.SafetySurvivesAliasLoss | images/utils/ci_utils/policy.py:353-394 | an image that is safe to touch stays so while it loses aliases |
| Policy.RetentionAfterAliasLoss | images/utils/ci_utils/policy.py:397-422 | an eligible image stays eligible after losing aliases exactly when it keeps a claim to the scope and does not become dangling too young |
| Policy.AliasLossCanExclude | images/utils/ci_utils/policy.py:405-422 | there are images that lose eligibility with their only alias, once by scope and once by age |
| Plans.FewerContainersReferLess | images/utils/ci_utils/cleanup.py:214-264 | references only shrink as more containers are excluded |
| Plans.ContainerStep | images/utils/ci_utils/cleanup.py:378-430 | a container is eligible at any point of a run exactly when the plan announces it |
| Plans.NetworkStep | images/utils/ci_utils/cleanup.py:398-430 | a network eligible at any point was announced, and once the announced containers are gone every announced network is eligible |
| Plans.ImageStep | images/utils/ci_utils/cleanup.py:398-430 | the same for images |
| Plans.ProtectionStays | images/utils/ci_utils/cleanup.py:196-212 | protected references resolve to the same images all through a run |
| Inventories.Inventory.References | images/utils/ci_utils/cleanup.py:214-264 | the loops compute exactly the images and networks that the remaining containers refer to, and fail exactly when one of these cannot be read |
| Inventories.NetworksOf | images/utils/ci_utils/cleanup.py:236-263 | a container's networks are those attached and those that its mode or an unattached endpoint reserves by name or identifier prefix |
| Inventories.Reserve | images/utils/ci_utils/cleanup.py:217-230 | a reservation adds every network with that name or identifier prefix |
| Inventories.Inventory.RefreshContainers | images/utils/ci_utils/cleanup.py:160-194 | on a quiet daemon a refresh ends with the daemon's containers, in one request for each and one for the list |
| Inventories.Inventory.ResolveProtections | images/utils/ci_utils/cleanup.py:196-212 | the images of all protected references that resolve are added, and none is forgotten |
| Inventories.Inventory.Load | images/utils/ci_utils/cleanup.py:154-158 | a load on a quiet daemon equals the daemon, within a linear number of requests |
| Cleanup.RemoveAndReport | images/utils/ci_utils/cleanup.py:431-463 | an object is reported removed exactly when the daemon deleted it and said so in the documented shape; a failure reports nothing removed |
| Cleanup.TryContainer | images/utils/ci_utils/cleanup.py:372-463 | one container: nothing unannounced goes, every announced one goes unless refused, and one the filter excludes costs no request |
| Cleanup.TryNetwork | images/utils/ci_utils/cleanup.py:372-463 | the same for a network, within a linear number of requests |
| Cleanup.ReadNetwork | images/utils/ci_utils/cleanup.py:398-415 | the recheck of a network asks for its metadata last, and before it for the list of containers and for each of them, since the last deletion |
| Cleanup.ReadImage | images/utils/ci_utils/cleanup.py:398-415 | the recheck of an image asks for its metadata last, and before it for the list of containers, for each of them and for each protected reference, since the last deletion |
| Cleanup.TryImage | images/utils/ci_utils/cleanup.py:372-463 | the same for an image and its stage; one that its decision or the profile excludes on the snapshot costs no request |
| Cleanup.FirstLook | images/utils/ci_utils/cleanup.py:378-397 | the filter on the snapshot excludes only what the full check excludes |
| Cleanup.CleanContainers | images/utils/ci_utils/cleanup.py:356-463 | the container stage removes the announced containers, and its requests are bounded by the inventory plus a constant for each survivor of the filter |
| Plans.NetworkPassesFilter | images/utils/ci_utils/cleanup.py:382-397 | the filter on the snapshot keeps every announced network |
| Cleanup.CleanNetworks | images/utils/ci_utils/cleanup.py:356-463 | the network stage removes the announced networks, with requests bounded by survivors times containers |
| Cleanup.CleanImages | images/utils/ci_utils/cleanup.py:356-463 | each image stage removes the announced images of its kind, with requests bounded by survivors of the decision and the profile, times containers and protected references |
| Cleanup.NetworkSurvivors | images/utils/ci_utils/cleanup.py:378-397 | networks that the filter lets through during a run would pass it on the initial daemon without the announced containers |
| Cleanup.Apply | images/utils/ci_utils/cleanup.py:353-463 | removed is always within the plan; at the end of an unrefused run on a quiet daemon it is exactly the plan; what is reported removed was deleted, and at the end equals the deletions; all requests are linear in the inventory plus survivors of the filters times containers and protected references |
| Cleanup.Plan | images/utils/ci_utils/cleanup.py:304-350 | candidates and dependent candidates are disjoint and together are exactly the planned set |
| Cleanup.NetworkAnnounced | images/utils/ci_utils/cleanup.py:315-328 | a network is announced, now or as a dependent, exactly when it goes once the eligible containers are gone |
| Cleanup.ImageAnnounced | images/utils/ci_utils/cleanup.py:329-343 | the same for an image |
| Completion.AcceptanceOfFinish | scripts/ci_docker_maintenance.py:309-354 | a complete report is accepted by the host that expects it exactly when the exit code matches and is not 6 |
| Completion.NoResultNoAcceptance | scripts/ci_docker_maintenance.py:313-322 | a report without its result is never accepted |
| Completion.ReconciliationIsNeverAccepted | images/utils/ci_utils/cleanup.py:118-133 | no part of a report that ends with code 6 is accepted by any host |
| Completion.Accounting | images/utils/ci_utils/cleanup.py:267-281 | a failed accounting ends the run only with code 6 |
| Completion.Conclude | images/utils/ci_utils/cleanup.py:118-133 | the host that started a run accepts its full report exactly for the exit code it ended with, if that is not 6; no other part is accepted by anybody |
| Completion.Run | images/utils/ci_utils/cleanup.py:530-648 | an unknown outcome is the last request, ends the run with code 6 or no result, and is never accepted; each deletion follows a lease check and fresh reads of what it depends on, by which it is allowed, and each cache request a lease check and a usage read by which the cache policy allows it, under any interference; check and plan send no mutation; plan and apply agree on the initial daemon |
| Completion.RunRetirement | images/utils/ci_utils/remove_images.py:210-277 | the same for version retirement: a dry run sends no mutation and reports what an unrefused apply removes; on a quiet daemon all other tags stay on their images, and protected and used images keep all their aliases |
| Handover.AcceptedExitIsOver | scripts/ci_docker_maintenance.py:495-521 | whatever part of an honest report a host accepts, the step machine allows the container's exit as accepted: no mutating request is in flight |
| Cache.BytesAddUp | images/utils/ci_utils/cache.py:197-208 | all reported bytes are the shared and the non-shared ones |
| Cache.ReadUsage | images/utils/ci_utils/cache.py:171-195 | usage is accepted exactly when every record is readable and no identifier repeats |
| Cache.CandidatesMayGo | images/utils/ci_utils/cache.py:281-287 | a stage submits exactly the records that are unused, of known and opted type, of known last use, and old enough |
| Cache.RoundedAgeStaysBehind | images/utils/ci_utils/cache.py:290-292 | the rounded age, counted back from submission, stays behind the threshold by less than a second |
| Cache.BuildCache.Observe | images/utils/ci_utils/cache.py:163-208 | an observation equals the daemon's cache, or fails and leaves the old records |
| Cache.BuildCache.ApplyObservation | images/utils/ci_utils/cache.py:255-270 | an unreadable observation during apply ends the run with code 5 or 6 |
| Cache.BuildCache.Prune | images/utils/ci_utils/cache.py:272-340 | at most two requests, only with records that may go; every request of the log is one of these and follows an accepted observation with nothing but the lease check in between, and none follows an observation that was not accepted; without a budget request only aged records disappear |
| Cache.BuildCache.Stage | images/utils/ci_utils/cache.py:281-340 | after an observation that failed a stage sends nothing; otherwise at most one request made from that observation |
| FilterText.PatternMatches | images/utils/ci_utils/engine.py:175-184 | the printed pattern reads back as the identifiers and matches a text exactly when it is one of them |
| Retirement.Matches | images/utils/ci_utils/remove_images.py:85-99 | every wanted tag is found on the one image that carries it |
| Retirement.MatchTags | images/utils/ci_utils/remove_images.py:93-99 | a tag carried twice, or an unreadable one, fails, and nothing else does |
| Retirement.SafetyStays | images/utils/ci_utils/remove_images.py:105-137 | during an apply an image is safe exactly when it was at the start |
| Retirement.OtherTagsSurvive | images/utils/ci_utils/remove_images.py:76-81 | every tag that was not removed survives on the same image |
| Retirement.UnsafeImagesUntouched | images/utils/ci_utils/remove_images.py:126-131 | protected and used images keep all their aliases |
| Retirement.UntagStep | images/utils/ci_utils/remove_images.py:142-184 | untagging one more safe reference keeps all that |
| Retirement.RemoveVersions | images/utils/ci_utils/remove_images.py:74-184 | the dry run reports exactly the retirable tags; an apply removes no other, and all of them unless one is refused; reports equal removals |
| References.NormalizeRepository | images/utils/ci_utils/policy.py:105-127 | the step-by-step normalization computes the specified repository or refuses |
| References.QualifyGivesNormal | images/utils/ci_utils/policy.py:116-123 | a normalized repository has a host, never the index alias, and a library component where the hub needs one |
| References.LibrarySpellings | images/utils/ci_utils/policy.py:116-123 | all five ways to write an image of the hub's library name one repository, as long as they fit 512 characters |
| References.LatestIsDefault | images/utils/ci_utils/policy.py:137-141 | a reference without tag is the same as with the tag latest, as long as that fits 512 characters |
| References.LongNormalForm | images/utils/ci_utils/policy.py:130-141 | there is a reference within 512 characters whose normal form is longer |
| References.RepositoryIsIdempotent | images/utils/ci_utils/policy.py:105-127 | a normalized repository is its own normal form exactly when it fits 512 characters |
| References.ReferenceNameIsNormalForm | images/utils/ci_utils/policy.py:130-141 | a normalized reference reads back as itself with the same repository exactly when it fits 512 characters |
| Text.SplitJoin | images/utils/ci_utils/policy.py:111-124 | splitting undoes joining |
| Text.JoinSplit | images/utils/ci_utils/policy.py:111-124 | joining undoes splitting |
| Quantities.DurationReads | images/utils/ci_utils/policy.py:71-83 | every text of optional hours, minutes and seconds means their sum, if it is short enough and in range |
| Quantities.DurationAccepts | images/utils/ci_utils/policy.py:71-83 | nothing else is accepted |
| Quantities.DurationRoundTrip | images/utils/ci_utils/policy.py:71-83 | every duration in range has a text within 32 characters that means it |
| Quantities.AcceptedSizesAreExact | images/utils/ci_utils/policy.py:86-102 | an accepted size and the number written lie in 1..2^53-1 |
| Quantities.SizeReads | images/utils/ci_utils/policy.py:86-102 | a number without leading zero and a unit mean the number times a power of 1024, if that is exact |
| Quantities.SizeAccepts | images/utils/ci_utils/policy.py:86-102 | nothing else is accepted, besides the same in upper case |
| Quantities.SizeRoundTrip | images/utils/ci_utils/policy.py:86-102 | every exact size has a text that means it |
| Storage.Measure | scripts/ci_docker_storage.py:11-97 | succeeds exactly for configured, reachable sources, with one entry for each device holding its first counts and all its roles and paths |
| Storage.Evaluate | images/utils/ci_utils/storage.py:28-113 | known exactly for conclusive samples; the flags are those of some filesystem; critical implies pressured |
| Storage.MeasuredIsConclusive | images/utils/ci_utils/storage.py:55-105 | whatever is measured from configured sources is conclusive when read in time |
| Storage.ExtraPathChangesNothing | scripts/ci_docker_storage.py:65-82 | one more path, at any position, changes neither flag if an earlier path is on its device or it shows the counts that the first one there shows |

## Assumptions

* An operator's evidence is true: the record's coordinator is dead and its work is over.
* A job's receipt is the last thing its work writes, so no operation inside the daemon outlives it.
* Processes do not leave the supervised session, and everyone who uses the daemon goes through the gate
  (`docs/maintenance.md`, lines 9 and 54).
* The daemon tells the truth: it answers 404 exactly for absent objects, and it deletes no cache record that the
  pattern does not match.
* A configured policy passed the source's own validation; reserved settings are typed values here.

## Left out

- `Gate.status` takes registration locks without the admission lock; it is not a step, so claims about admission are
  for runs without it.
- File modes, owners, symbolic links, flushing and JSON encoding of records: a write or removal of a record is one
  atomic durable step.
- Real time: deadlines are choices that may fall at any point, so termination of waiting and freedom from deadlock are
  not claimed.
- Check and plan containers of `maintain` run without a lease and are not part of the step machine.
- Transport, timers, threads, the Docker command line, the BuildKit probe and the text of Buildx: only their outcomes
  appear.
- Daemon identity and version parsing in `Engine.preflight` are one outcome with codes 2 and 3.
- The 1 MiB limit on a prune request is a choice of the environment, with the source's exit code.
- Engines.Engine.PruneCache: the daemon may delete any subset of the matching records; its age and space filters are
  not used to restrict that.
- Retirement: versions that match no tag are not reported, and digests other than those of the removed tag go in any
  number.
- Parsing of command lines, the merge of configuration, environment overrides, hashing, and the limits on report
  detail.
- Digits outside ASCII, which the source's regular expressions accept, and case folding outside ASCII.
- Rounding of floating-point seconds: times are whole microseconds.
