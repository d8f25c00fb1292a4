# Verified model of the Korsair scan operator

The operator discovers the container images that run in one or more Kubernetes clusters, keeps one `ImageScanJob` per
image and scanner, runs a batch Job for each, stores what the scanner found, reports it and clears old jobs away. This
project models that behaviour in Dafny and proves what it keeps over every run.

`dafny verify dfyconfig.toml` checks the whole project.

## How the model is built

* **The machine** (`Protocol`): the SecurityScanConfig controller, the ImageScanJob controller, the cleaner, the web
  API's manual scans, the batch system and the users are one machine over one store. Each event is one store access of
  one of them, so a run, any sequence of events, is any interleaving; API failures, crashes between two accesses,
  digest lookups, list orders and scanner output are carried by the events. `Steps` says what each kind of event may
  touch. The theorems about runs are in `Lifecycle`, `ScanLimit`, `Exposure`, `DoubleScan`, `BatchJobs`,
  `Incarnations`, `Cleaner`, `RetrySpacing` and `Spacing`; `Scenarios` holds the concrete runs that show where a
  promise needs its hypothesis.
* **The code's loops** (`Discovery`, `Ordering`, `Controllers`, `Cycles`, `Parsing`, `Reports`, `Notification`,
  `Accounting`): the same operations in the imperative form of the source, methods with loops over objects whose
  fields they update, each proved against a specification that says what it computes; what that comes to in the fields
  of the objects is stated beside it.
* **The bridge** (`Ensure`, `Reconcile`, `Cycles`, `Undisturbed`): each of these operations, when nobody disturbs it,
  leaves the store as one of the machine's runs does, so the two halves describe the same controllers. `Progress`
  builds on it.

Assumptions: store reads are linearizable; each controller runs one reconcile at a time; time never goes back;
`Protocol` counts whole seconds. A failed API request has no effect. What that hides: a request can land while its
reply is lost. For the ImageScanJob controller this is a write followed by a crash, which the runs contain. A
scheduled creation of that kind they do not contain: the batch does not count it, so each one raises by one the open
jobs that a namespace can get to when the batch has more new names than slots (`Exposure.LostReplyCostsASlot`); the
bounds below hold for runs without one. ImageScanJobs are created by a config's cycle or a request to the web API and
by nobody else, batch Jobs by the ImageScanJob controller, and nobody edits the spec of either: a scan job applied by
hand, or a changed `spec.scanner`, would break the link between names and scanners on which
`BatchJobs.OneJobPerScanJob` and `DoubleScan.DoublesAreManual` rest. SHA-256, registry digests, JSON decoding,
duration parsing, upper-casing and the database's collation are parameters, and so is everything else a controller
reads from outside. Images and scanner names contain no NUL, so that the key "image NUL scanner" is a pair. One
environment variable gives both controllers their limit (`cmd/main.go:191`). `uid`, `verdicts`, `manual`, `recounted`
and `retried` record history that the code never looks at. Lemmas marked `{:induction false}` rest on their written
proofs alone.

## Where the code and its documentation disagree

* The scan limit (the repository's `README.md:123`) and the one-job-per-pair rule hold, in every run, for the jobs
  that configs schedule (`ScanLimit.ScheduledJobsKeepLimit`, `DoubleScan.NoDoubleScan`). For all jobs they can fail
  once scans are started by hand (`Scenarios.ManualScanDoubles`). From a state on, and without further scans by hand,
  the limit is kept exactly when the open jobs and those that the running batch can still add keep to it
  (`Exposure.LimitIsKeptIff`), and `Exposure.LimitIsLostIff` names the manual scans that end this; a pair has two jobs
  exactly when one was started by hand and the other scheduled under a digest, and never three
  (`DoubleScan.DoublesAreManual`).
* The cap on batch Jobs can fail once a Job between two attempts is counted again (`Scenarios.BackoffExceedsCap`).
  Without further such recounts it is kept from a state on exactly when the counted Jobs and the one about to be
  created keep to it (`BatchJobs.CapIsKeptIff`), and `BatchJobs.CapIsLostIff` names the recounts that end this.
* A verdict can reach an object whose scan it does not come from: exactly a name that is used again before its batch
  Job is gone, or while its reconcile has more to do than patch it to Running, makes that possible
  (`Incarnations.CleanReuseIsExact`).
* The cleaner deletes what it listed, and what it then hits is stale exactly when it is still the listed object
  (`Cleaner.CleanerDeletesOnlyStale`).
* `completionTime` is documented as the end of any scan (`api/v1alpha1/imagescanresult_types.go:85-87`), but a failure
  never sets it. So the two-hour guard on retries never holds one back (`Lifecycle.RetryGuardNeverHolds`). The spacing
  is proved for a labelled variant that sets it (`RetrySpacing`, `stampFailures`), and refuted for the code
  (`Scenarios.RetriesAreNotSpaced`, `Spacing.SpacedIffStamped`).
* Deferred images are said to be processed as slots free up
  (`internal/controller/securityscanconfig_controller.go:359-360`). A call for a tag whose digest is scanned already
  uses a slot and covers nothing, so the oldest tags can take all slots of every cycle
  (`Progress.RoundProgressesIff`).
* The discovery cap is documented as alphabetical (`internal/controller/securityscanconfig_controller.go:86-88`); it
  keeps the oldest deployments.
* `notifiedImageCount` is documented as re-arming on new images (`api/v1alpha1/securityscanconfig_types.go:122-125`);
  within the cooldown it re-arms on any change of the number of finished jobs, and on nothing else
  (`Notification.NextRecordIff`, `Notification.CleaningRearmsTheGate`, `Notification.ReplacedImagesAreSuppressed`).
* The dashboard's active jobs are only the Running ones; the phase Pending is never written.

## Model

| member | source | states |
|---|---|---|
| ScanLimit.ScheduledJobsKeepLimit | internal/controller/securityscanconfig_controller.go:261-349 | In every state that any run reaches, whatever is started by hand, the jobs of a namespace that configs scheduled and that are neither Completed nor Failed are at most the effective limit, although the limit is checked once, on a snapshot, while everyone else moves |
| ScanLimit.ScanLimitHolds | internal/controller/securityscanconfig_controller.go:261-349 | So in every reachable state all open jobs of a namespace are at most the limit plus the manual jobs open now |
| Exposure.LimitIsKeptIff | internal/controller/securityscanconfig_controller.go:261-349 | The exact condition for the limit, in every reachable state: every continuation without further manual scans in the namespace keeps its open jobs within the limit if and only if the open jobs plus min(slots left, new names) of the running batch are, where the new names are those of calls that can still create a job and that no open job holds |
| Exposure.LimitIsLostIff | cmd/web/main.go:503-530 | Among all steps from such a state, exactly those manual scans lead to one from which the limit can be exceeded without any other that create a job when that sum has reached the limit, unless they take one of the new names and the batch has a slot for each of these |
| Exposure.LimitHoldsIff | internal/controller/securityscanconfig_controller.go:261-349 | Over whole runs: every state is one from which the limit is kept if and only if the run has no such manual scan, and then the run keeps the limit |
| Exposure.LostReplyCostsASlot | internal/controller/securityscanconfig_controller.go:338-347 | What the assumption about failed requests hides: a creation that lands while its reply is lost takes a slot that the batch does not count, and raises what the namespace can get to by one exactly when the batch has more new names than slots |
| ScanLimit.ScanLimitAfterRestart | internal/controller/securityscanconfig_controller.go:262-281 | After a restart with a new limit the scheduled jobs stay within the limit or what was open of them then, and all open jobs within the limit or what was open then, plus the manual scans made since |
| ScanLimit.SscMovesReserveNothing | internal/controller/securityscanconfig_controller.go:310-349 | Between snapshot and last call, the creations a batch may still make never grow |
| Scenarios.ManualScanDoubles | cmd/web/main.go:501-530 | The run that breaks both promises for all jobs, for every full-length digest: one scheduled and one manual scan of an image are two open jobs for one pair and one more than a limit of one |
| DoubleScan.NoDoubleScan | internal/controller/securityscanconfig_controller.go:253-349 | Every reachable state has, among the scheduled jobs of a namespace, at most one that has not failed for each image and scanner, under two kinds of names, shared digests, repeated scanners and any scans by hand |
| DoubleScan.DoublesAreManual | cmd/web/main.go:565-568 | The exact condition over all jobs of every reachable state: a pair has two that have not failed if and only if one is manual, under the hash name, and the other scheduled under a digest; and never three |
| DoubleScan.ScheduledDoublesIff | internal/controller/securityscanconfig_controller.go:310-349 | A call of a batch makes the first double of a namespace if and only if a job of its pair that has not failed was started by hand after the snapshot of that batch, whatever happened in between |
| DoubleScan.ManualDoublesIff | cmd/web/main.go:503-530 | A manual scan makes the first double of a namespace if and only if a job of its pair that has not failed was scheduled under a digest |
| DoubleScan.WorklistIsFresh | internal/controller/securityscanconfig_controller.go:314-322 | A batch asks only for pairs that no job other than a failed one holds, with one digest per image |
| DoubleScan.WorklistIff | internal/controller/securityscanconfig_controller.go:310-337 | Which calls a batch asks for: exactly those for a discovered image, a chosen scanner and a pair that is not covered, with the image's digest and namespace |
| Lifecycle.StatusShape | internal/controller/imagescanresult_controller.go:782-832 | In every reachable state a completion time is set exactly when the phase is Completed, counts are non-zero only then, Pending never occurs and a start is not after its completion |
| Lifecycle.VerdictsAreJustified | internal/controller/imagescanresult_controller.go:262-278 | Whatever patches failed on the way, every terminal status rests on a batch Job, in that Job's fields: a Completed one on a success without an active pod, with exactly the counts that were parsed; a Failed one on the Failed condition, or on such a success whose log did not parse |
| Lifecycle.TerminalAbsorbs | internal/controller/imagescanresult_controller.go:222-226 | Once Completed or Failed, the status of an incarnation stays the same in every continuation of the run |
| Lifecycle.DoneMeansTerminal | internal/controller/imagescanresult_controller.go:214-290 | A reconcile that returns neither an error nor a requeue leaves its job terminal or absent |
| Lifecycle.PatchResult | internal/controller/imagescanresult_controller.go:819-831 | What a landed merge patch leaves under the name: the computed status, or that patch on a blank status when the name was reused meanwhile |
| Lifecycle.PatchLaws | internal/controller/imagescanresult_controller.go:782-832 | A merge patch over the object it was computed from gives the computed status, and one that changes nothing leaves any other object as it is |
| Lifecycle.RetryGuardNeverHolds | internal/controller/securityscanconfig_controller.go:547-556 | In no reachable state does the two-hour guard skip a failed job |
| RetrySpacing.StampedRetriesAreSpaced | internal/controller/securityscanconfig_controller.go:547-556 | In the variant whose failures carry a completion time, retries of one name are two hours apart in every run without manual scans |
| Scenarios.ManualScanShortensInterval | internal/controller/securityscanconfig_controller.go:547-596 | Why it excludes manual scans: with one, two retries of a name in that variant come one second too close |
| Scenarios.RetriesAreNotSpaced | internal/controller/imagescanresult_controller.go:806-820 | In the code as written two retries of one name can come in the same second |
| Spacing.SpacedIffStamped | internal/controller/securityscanconfig_controller.go:547-556 | The exact condition: retries are two hours apart in all runs, where nobody scans by hand, if and only if a failure sets the completion time |
| BatchJobs.JobCapHolds | internal/controller/imagescanresult_controller.go:238-258 | In every reachable state the counted Jobs are at most a positive cap plus those of them that are counted again after they were not |
| BatchJobs.CapIsKeptIff | internal/controller/imagescanresult_controller.go:238-258 | The exact condition for the cap, in every reachable state: every continuation in which no Job becomes counted again keeps the counted Jobs within the cap if and only if they and the Job about to be created are |
| BatchJobs.CapIsLostIff | internal/controller/imagescanresult_controller.go:309-324 | Among all steps from such a state, exactly the recounts with that sum at the cap lead to one from which the cap can be exceeded without any other |
| BatchJobs.CapHoldsIff | internal/controller/imagescanresult_controller.go:238-258 | Over whole runs: every state is one from which the cap is kept if and only if the run has no such recount, and then the run keeps the cap |
| BatchJobs.RecountedCameBack | internal/controller/imagescanresult_controller.go:309-324 | A run in which no Job becomes counted again records none as counted again |
| Scenarios.BackoffExceedsCap | internal/controller/imagescanresult_controller.go:317-323 | The run in which it happens: a Job between two attempts is not counted, and two are counted under a cap of one |
| BatchJobs.OneJobPerScanJob | internal/controller/imagescanresult_controller.go:237-259 | In every reachable state a scan job labels at most one batch Job, even when the controller stops between creating it and patching the phase |
| Incarnations.VerdictIsOwn | internal/controller/imagescanresult_controller.go:294-305 | When names are reused only after their Job is gone and not while their reconcile still has a verdict to write or a Job to create, every terminal status was computed from a Job created for that same incarnation |
| Incarnations.UncleanReuseHurts | internal/controller/imagescanresult_controller.go:237-278 | From every reachable state, a creation that breaks the hypothesis has a continuation without further creations, in which finished Jobs keep their status and counts of pods never fall, and in which the new object ends with the verdict of another incarnation |
| Incarnations.CleanReuseIsExact | internal/controller/imagescanresult_controller.go:237-278 | So the hypothesis is exact: a creation after clean ones is clean if and only if no continuation by clean ones ever writes a foreign verdict, over the continuations that the batch system can make as well as over all |
| Scenarios.StaleJobFailsRetry | internal/controller/securityscanconfig_controller.go:553-596 | Without the first condition: a retry is failed by the Job of the object it replaced |
| Scenarios.VerdictLandsOnReplacement | internal/controller/imagescanresult_controller.go:782-803 | Without the second: the patch of a reconcile in flight completes the new incarnation for the old one's Job |
| Cleaner.CleanerDeletesOnlyStale | internal/controller/scanjob_cleaner.go:61-102 | Whenever the cleaner is about to delete, in any run, what it hits is stale if and only if it is the listed object (for a positive retention), and otherwise was created no earlier than the list was taken |
| Scenarios.CleanerDeletesRetry | internal/controller/scanjob_cleaner.go:71-101 | The run in which it is another one: an open job created just now is deleted |
| Controllers.ApiServer.RunCleanup | internal/controller/scanjob_cleaner.go:71-102 | Undisturbed, it removes exactly the Completed and Failed jobs created at the cutoff or before whose delete succeeds, and counts them |
| Undisturbed.CleanupIsARun | internal/controller/scanjob_cleaner.go:61-102 | That store is what a listing and then one delete for each stale job of the machine leave |
| Naming.NamesParseUniquely | internal/controller/securityscanconfig_controller.go:802-809 | Two names are equal exactly when their content keys and their scanners are, whatever characters the scanner contains |
| Naming.DigestNameIsNoFallback | internal/controller/securityscanconfig_controller.go:802-809 | A name built from a digest never equals one built from the image hash |
| Naming.ManualNameIsFallbackName | cmd/web/main.go:565-568 | The web API's name equals a controller name exactly when that controller lookup found no digest, the eight hash bytes agree and the scanner is the same |
| Naming.HexEncodeInjective | internal/controller/securityscanconfig_controller.go:807-808 | Hex printing of the hash loses nothing |
| Naming.JobKeyInjective | internal/controller/imagescanresult_controller.go:61-66 | Scan job names extended by a suffix collide only for one scan job and one suffix |
| Naming.DigestNamesIff | internal/controller/securityscanconfig_controller.go:802-806 | Which part of a digest counts: for two digests longer than 15 characters the names are equal exactly when characters 7 to 14 of the digests and the scanners are |
| Naming.NameSpelled | internal/controller/securityscanconfig_controller.go:802-809 | Every name, character by character: `scan-`, those eight characters or the first eight hash bytes in lower-case hex, a dash and the scanner |
| Naming.JobKeySpelled | internal/controller/imagescanresult_controller.go:61-66 | A batch Job is named after its scan job, with `-grype` for grype and `-trivy` for any other scanner |
| Controllers.ApiServer.EnsureImageScanJob | internal/controller/securityscanconfig_controller.go:541-597 | Each outcome of one call: kept, backfilled, skipped, replaced after a failure, created, or which request failed, with the store it leaves |
| Ensure.CallEnsures | internal/controller/securityscanconfig_controller.go:541-597 | That outcome in the fields of the job that holds the name: two hours after a stamped failure it is replaced, an empty namespace is filled in, a new job has the given spec and an empty status, and a failing create after the delete leaves none |
| Ensure.TwoDigestsTwoJobs | internal/controller/securityscanconfig_controller.go:541-597 | Two calls whose digests differ in characters 7 to 14 and whose names are free leave two new jobs, each for its own image and scanner |
| Ensure.EnsureIsARun | internal/controller/securityscanconfig_controller.go:541-597 | An undisturbed call does what the machine's get, patch, delete and create do in that order |
| Controllers.ApiServer.CreateBatch | internal/controller/securityscanconfig_controller.go:307-349 | The calls made are the shortest prefix of the flattened worklist with as many nil returns as there are free slots, or all of it; `pending` counts the images with a call not made, so it is positive only when the slots are used up |
| Ensure.BatchIsARun | internal/controller/securityscanconfig_controller.go:307-349 | Such a prefix of calls is a run of the machine |
| Controllers.ApiServer.LoadCovered | internal/controller/securityscanconfig_controller.go:253-258 | The first loop collects exactly the pairs of jobs that have not failed |
| Controllers.ApiServer.CountOpen | internal/controller/securityscanconfig_controller.go:265-272 | The second loop counts exactly the jobs of the namespace that are neither Completed nor Failed |
| Controllers.ApiServer.RunCycle | internal/controller/securityscanconfig_controller.go:249-367 | The throttled cycle: which calls it makes, the store afterwards, and that it comes back early exactly when throttled or with work left, and with an error exactly when the listing or the status update fails. When nothing fails it makes exactly the first min(setting - open jobs, work) calls, and none when the setting is used up, with 10 for a setting that is not positive |
| Ensure.CycleFillsSlots | internal/controller/securityscanconfig_controller.go:101-105 | The same about every outcome that a cycle without faults can have, in terms of the setting itself |
| Cycles.ReconcileConfig | internal/controller/securityscanconfig_controller.go:125-367 | Reconcile of a config from its annotation on: a reset instead of a cycle, a disabled source, discovery, merge, scanner choice, order, cap, throttle and batch, each request that can fail, the store and what is returned. Its calls go from the oldest deployment to the youngest, and an image without its calls was cut by the cap and is no older than any image with one |
| Cycles.ScanConfig | internal/controller/securityscanconfig_controller.go:142-367 | The same without a reset |
| Cycles.CycleIsARun | internal/controller/securityscanconfig_controller.go:249-349 | An undisturbed cycle is a snapshot followed by calls of the machine |
| Cycles.WantedIsUnique | internal/controller/securityscanconfig_controller.go:286-349 | The work of a cycle is a function of the clusters: neither map iteration nor sorting can change it |
| Cycles.CallsGoByAge | internal/controller/securityscanconfig_controller.go:286-332 | The order of that work by deployment time, what the cap leaves out, and that each call carries the namespace its image was found in |
| Cycles.DiscoveredSomewhere | internal/controller/securityscanconfig_controller.go:155-229 | What a cycle discovers: an image that a local pod shows, with the oldest such pod; any other as the first cluster that runs it found it; and no other image |
| Cycles.EnabledIsIntersection | internal/controller/securityscanconfig_controller.go:812-824 | The scanners used are those that are requested and allowed |
| Cycles.EnabledKeepsOrder | internal/controller/securityscanconfig_controller.go:812-824 | They stand in the requested order, each as often as requested |
| Cycles.ScannersForIff | internal/controller/securityscanconfig_controller.go:236-246 | What scans an image: trivy unless scanners are requested, and of these only the allowed ones when there is an allow-list |
| Cycles.IntersectScanners | internal/controller/securityscanconfig_controller.go:812-824 | The two loops compute them in the requested order |
| Controllers.ApiServer.HandleReset | internal/controller/securityscanconfig_controller.go:609-625 | A reset removes exactly the jobs in the namespace that carry the config's label and whose delete succeeds, and counts them; jobs of other configs stay |
| Undisturbed.ResetIsARun | internal/controller/securityscanconfig_controller.go:609-625 | That store is what a listing and then one delete for each of the jobs of the config leave |
| Progress.WorklistIsMissing | internal/controller/securityscanconfig_controller.go:310-322 | A cycle's worklist is the full image by scanner list without the covered pairs, in order |
| Progress.FullListNext | internal/controller/securityscanconfig_controller.go:310-337 | That full list, one image after the other: all scanners of the first image in their order, each with its digest and namespace, then those of the other images |
| Progress.CallCoversIff | internal/controller/securityscanconfig_controller.go:337-347 | A call for an uncovered pair uses a slot either way, and covers the pair exactly when no job that has not failed holds its name: as long as one does, a second tag of a scanned digest is not covered |
| Progress.CallsCoverExactly | internal/controller/securityscanconfig_controller.go:310-349 | Which pairs any number of calls without faults cover, whatever their names: exactly those of the calls that come first to a name no job holds that has not failed |
| Progress.RoundProgressesIff | internal/controller/securityscanconfig_controller.go:261-349 | The exact condition for progress: a cycle without faults covers something new if and only if one of the calls that its slots allow has such a free name. When older tags of scanned digests take all its slots it covers nothing |
| Progress.RoundFinishesIff | internal/controller/securityscanconfig_controller.go:261-349 | The exact condition for finishing: a cycle without faults and with a slot for every call leaves nothing missing if and only if the names it needs are free and different pairs have different ones |
| Progress.CycleCoversPrefix | internal/controller/securityscanconfig_controller.go:310-349 | With distinct and free names, a cycle without faults covers exactly the first min(free slots, missing) of the missing pairs |
| Progress.BatchLength | internal/controller/securityscanconfig_controller.go:310-349 | Without faults the batch loop makes min(free slots, worklist) calls, whatever their names |
| Progress.LookupsDoNotMatter | internal/controller/securityscanconfig_controller.go:310-332 | What is missing is the same whatever the lookups of a cycle return |
| Progress.RoundCovers | internal/controller/securityscanconfig_controller.go:261-349 | One undisturbed cycle takes exactly min(free slots, missing) pairs off the missing ones, from the front, where the free slots are what its own store leaves of the limit |
| Progress.CycleReachesLimit | internal/controller/securityscanconfig_controller.go:101-105 | With at least as many distinct and free names to call as slots, a cycle without faults leaves exactly as many open jobs as the setting says, and exactly 10 when it is not positive |
| Progress.CyclesCover | internal/controller/securityscanconfig_controller.go:359-367 | After any number of cycles, each with its own clock, digests, namespaces and free slots, and no change of the covered pairs between them, what is missing is what those slots have not used up |
| Progress.CyclesLeaveAtMost | internal/controller/securityscanconfig_controller.go:359-367 | When other pairs may become covered between the cycles, at most that much is left |
| Progress.EverythingIsCovered | internal/controller/securityscanconfig_controller.go:359-367 | Once the free slots add up to the pairs missing at first, and at the latest after that many cycles when each finds a free slot, nothing is missing |
| Controllers.ApiServer.ReconcileScanJob | internal/controller/imagescanresult_controller.go:214-290 | One undisturbed reconcile, every branch and every failing request: the store it leaves and what it tells the queue, in the fields of the scan job and of its batch Job |
| Reconcile.JobIsJudged | internal/controller/imagescanresult_controller.go:259-290 | A scan job with a batch Job: a success without an active pod completes it, or fails it when the log does not parse; the Failed condition fails it; otherwise it becomes or stays Running |
| Reconcile.JobIsLaunched | internal/controller/imagescanresult_controller.go:237-259 | A scan job without one: a Job is created with the scan job's uid, name and scanner unless the cap is positive and used up by Jobs with an active pod or with neither success nor failure |
| Reconcile.AttemptsAreWaitedFor | internal/controller/imagescanresult_controller.go:279-290 | A Running scan job whose Job has neither a success nor the Failed condition is left alone and looked at again, however many of its pods have failed |
| Reconcile.ReconcileIsARun | internal/controller/imagescanresult_controller.go:214-290 | That reconcile is a run of the machine |
| Controllers.ApiServer.CountActiveJobs | internal/controller/imagescanresult_controller.go:309-324 | The loop counts exactly the Jobs with an active pod or with neither success nor failure |
| Controllers.ApiServer.TriggerScan | cmd/web/main.go:501-539 | A manual request does what the specification `TriggerFirst` does with its images, up to the first one whose create fails or whose get fails on a name that exists |
| Undisturbed.TriggerIsARun | cmd/web/main.go:503-533 | The images dealt with are as many manual scans of the machine |
| Controllers.ManualScansKeep | cmd/web/main.go:503-509 | It leaves every job that was there as it was |
| Controllers.ManualScansCover | cmd/web/main.go:503-533 | Afterwards every image dealt with has a job under its manual name |
| Controllers.ManualScansAdd | cmd/web/main.go:503-533 | The new jobs are exactly those under the names reported as created |
| Controllers.ManualScansAreCounted | cmd/web/main.go:501-539 | Each name is reported created once, and every image as created or skipped |
| Controllers.ManualScansAreFresh | cmd/web/main.go:510-529 | The new jobs were created now, with an empty status, for a requested image and the requested scanner, and carry the manual label and no digest |
| Discovery.DiscoverImages | internal/controller/securityscanconfig_controller.go:447-475 | The pod loops compute the record of all sightings outside the excluded namespaces |
| Discovery.DiscoveryFindsEarliest | internal/controller/securityscanconfig_controller.go:453-473 | Exactly the non-empty images are found, each with its earliest creation time and the namespace of the first pod reaching it |
| Discovery.DiscoveryInPods | internal/controller/securityscanconfig_controller.go:447-475 | In terms of the pods: an image is found exactly when a pod outside the excluded namespaces has it in a container or an init container, with the namespace and creation time of the oldest such pod, the first listed among equals |
| Discovery.ListingOrderPermutesSightings | internal/controller/securityscanconfig_controller.go:447-475 | The same pods in another order give the same sightings in another order |
| Discovery.OrderDecidesOnlyNamespaces | internal/controller/securityscanconfig_controller.go:480-513 | Images and times do not depend on the order in which pods are listed; only namespaces may |
| Discovery.MergeClusters | internal/controller/securityscanconfig_controller.go:195-229 | The loop over clusters computes the fold, skipping a cluster that failed |
| Discovery.FirstClusterWins | internal/controller/securityscanconfig_controller.go:219-228 | The first cluster that runs an image gives it its label, and its entry unless the image also runs locally |
| Discovery.LocalOnly | internal/controller/securityscanconfig_controller.go:219-228 | An image that no remote cluster runs keeps its local entry, if any, and has no label |
| Discovery.RepeatedClusterChangesNothing | internal/controller/securityscanconfig_controller.go:179-193 | Referring to a cluster twice changes nothing |
| Ordering.SelectImages | internal/controller/securityscanconfig_controller.go:283-305 | Sorting and capping keep exactly the oldest images, oldest first, and every image left out was deployed no earlier than every one kept |
| Ordering.SelectionIsOldest | internal/controller/securityscanconfig_controller.go:286-305 | Every such list in terms of deployment times: its length, strictly by time and then by name, and no image left out comes before one that is kept |
| Ordering.StringLessIff | internal/controller/securityscanconfig_controller.go:290-297 | Names compare as byte strings do: one is less exactly when it is a proper prefix of the other or smaller at the first difference |
| Ordering.SelectionUnique | internal/controller/securityscanconfig_controller.go:286-305 | There is only one such list: it does not depend on map iteration or the sorting algorithm |
| Ordering.OlderIsOrder | internal/controller/securityscanconfig_controller.go:290-297 | The comparator is a strict weak order |
| Ordering.OlderIsTotal | internal/controller/securityscanconfig_controller.go:290-297 | Two different images are always ordered, by name when they were deployed in the same second |
| Ordering.ListedBeforeIsWeakOrder | cmd/web/main.go:454-467 | The web API's comparator is a strict weak order |
| Ordering.SortedIsDatedFirst | cmd/web/main.go:452-467 | A list is sorted by it exactly when the dated entries come first and by time, and the others last and by image |
| Ordering.SameSecondIsUnordered | cmd/web/main.go:454-467 | Unlike the scan order it leaves entries of the same second in either order |
| Ordering.SortingIsUniqueIff | cmd/web/main.go:452-467 | Sorting by a strict weak order leaves no choice if and only if no two different elements are tied |
| Ordering.ListOrderIsUniqueIff | cmd/web/main.go:452-467 | So the order of the list is determined if and only if no two different entries share a deployment time, and none without a time an image |
| Notification.ConfigObject.UpdateStatus | internal/controller/securityscanconfig_controller.go:642-758 | A failed patch changes and sends nothing. Otherwise it stores the numbers of listed jobs that are Completed, Failed and neither, and a report goes out exactly when every listed job is finished, one Completed, settings, thresholds and webhook allow it, and the last one is a cooldown old or counted another number of jobs; then time and number are recorded |
| Notification.StoredCountsAddUp | internal/controller/securityscanconfig_controller.go:646-671 | The counts that the configs' statuses store, each over its own listing, and those of the jobs that no config lists add up to the jobs of the cluster |
| Notification.NotificationsAreSpaced | internal/controller/securityscanconfig_controller.go:686-730 | In any run of calls, two consecutive recorded notifications are a cooldown apart, measured from the stored time and so up to one second, or the number of finished jobs changed |
| Notification.NextRecordIff | internal/controller/securityscanconfig_controller.go:686-730 | The exact condition in any run: a call after a recorded notification is recorded if and only if it is worth sending, its patch lands, and the number of jobs differs or the cooldown has passed since the stored time; which images they are has no say |
| Notification.SteadyCountSpacesAll | internal/controller/securityscanconfig_controller.go:686-730 | While that number stays the same, any two recorded notifications are spaced |
| Notification.SpacingLosesPartOfASecond | internal/controller/securityscanconfig_controller.go:688-689 | The lost second is real |
| Notification.SpacingIsFullIff | internal/controller/securityscanconfig_controller.go:688-730 | The exact condition: after a recorded notification a next one can come too early if and only if the first was not made on a whole second |
| Notification.NoMoreReportsThanRecords | internal/controller/securityscanconfig_controller.go:732-757 | Reports sent never outnumber recorded notifications, and equal them exactly when every post succeeds |
| Notification.UpdateAll | internal/controller/securityscanconfig_controller.go:642-758 | Over a sequence of calls, the status and the reports are those of the specification the run theorems speak about |
| Notification.CleaningRearmsTheGate | internal/controller/securityscanconfig_controller.go:690-692 | Removing a finished job makes the rest be reported again at once |
| Notification.ReplacedImagesAreSuppressed | internal/controller/securityscanconfig_controller.go:690-692 | New images in the same number as the old are not reported within the cooldown |
| Notification.LostReportIsNotRetried | internal/controller/securityscanconfig_controller.go:748-751 | A report whose post failed is not tried again within the cooldown |
| Notification.EffectiveCooldown | internal/controller/securityscanconfig_controller.go:764-774 | The config's cooldown when it parses to a positive one, else the environment's when positive, else one hour |
| Notification.ExceedsThresholds | internal/controller/securityscanconfig_controller.go:424-437 | The loop decides whether there is no threshold or some job exceeds it |
| Reports.Database.HandlePut | cmd/web/main.go:341-389 | Wherever the transaction breaks, the tables are the old ones or hold exactly the sent rows and the scanner in place of the key's old ones, and it reports success exactly when nothing broke |
| Reports.Database.PostReport | internal/controller/imagescanresult_controller.go:726-779 | For every pattern of lost, broken, committed and unacknowledged attempts: how many attempts are made, when it succeeds, and that the tables are as after one commit if any attempt committed and untouched otherwise |
| Reports.Database.Upload | internal/controller/imagescanresult_controller.go:747-778 | The key's rows are the old ones or exactly those sent, those sent on success, and no other key changes |
| Reports.ReplaceStores | cmd/web/main.go:358-382 | A commit stores exactly its rows under its key and leaves every other key's rows |
| Reports.ReplaceTwice | cmd/web/main.go:348-384 | Committing the same upload again changes nothing |
| Reports.Database.HandleGet | cmd/web/main.go:269-318 | A read returns a permutation of the key's rows that never goes back in severity, and within one severity never in id, or not-found exactly when there are none |
| Reports.ReadAfterReplace | cmd/web/main.go:309-312 | Reading back an upload gives its rows sorted, except that a stored report without findings reads as not found |
| Reports.RowBeforeIsWeakOrder | cmd/web/main.go:273-277 | Ordering by severity and then id is a strict weak order under any collation that is one |
| Reports.SortedBySeverityThenId | cmd/web/main.go:273-277 | What rows sorted by it look like: by severity, and by id within one severity |
| Parsing.ParseTrivyResults | internal/controller/imagescanresult_controller.go:613-634 | The records are the vulnerabilities of all results in order, none lost or repeated, each with the nine fields that the source gives it and its severity in upper case, and each count is the number of records with that severity |
| Parsing.TrivyRowAt | internal/controller/imagescanresult_controller.go:615-632 | Where each vulnerability stands in the flattened records |
| Parsing.ParseGrypeMatches | internal/controller/imagescanresult_controller.go:665-691 | One record per match, in order, field by field: the artifact as target and library, the first fix version or none, with the same counts |
| Parsing.KnownSeveritiesAreCounted | internal/controller/imagescanresult_controller.go:613-634 | The four counts add up to at most the records, and to all of them exactly when every severity is known |
| Parsing.SeverityCountsAreNumbers | internal/controller/imagescanresult_controller.go:613-619 | Each of the four counts is the number of records whose severity is spelt so in capitals |
| Parsing.TrivyObjectIsFound | internal/controller/imagescanresult_controller.go:602-609 | Decoding starts at Trivy's object exactly when the log before it has no brace |
| Parsing.GrypeObjectIsFound | internal/controller/imagescanresult_controller.go:647-661 | Decoding starts at Grype's object, which opens with the key, exactly when the log before it does not contain the key, whatever braces it has |
| Parsing.ParseTrivyJSON | internal/controller/imagescanresult_controller.go:601-635 | The whole parser with both of its errors: it succeeds exactly when a brace exists and the rest decodes, with the records and counts of what it decodes |
| Parsing.ParseGrypeJSON | internal/controller/imagescanresult_controller.go:646-692 | The whole parser with its three errors, in the same way |
| Parsing.ParseScanResults | internal/controller/imagescanresult_controller.go:541-548 | The parser of the scanner that the job names, and an error exactly when the log cannot be read or holds no such result |
| Parsing.StatusMatchesReport | internal/controller/imagescanresult_controller.go:263-273 | In any run in which a log is parsed and its patch lands later on, with any events between and after, the status is Completed and its counts are those of the rows that an upload of the parsed records stores, as long as the object exists |
| Accounting.CountStatuses | internal/controller/securityscanconfig_controller.go:654-664 | The three counters of a config's status |
| Accounting.EveryJobIsCounted | internal/controller/securityscanconfig_controller.go:654-671 | They add up to the listed jobs |
| Accounting.CountsAreNumbers | internal/controller/securityscanconfig_controller.go:654-664 | Each is the number of listed jobs that are Completed, Failed and neither |
| Accounting.ListingIsByLabel | internal/controller/securityscanconfig_controller.go:646-651 | A config lists exactly the jobs of its target namespace that carry its name |
| Accounting.ConfigsAddUp | internal/controller/securityscanconfig_controller.go:646-664 | With distinct config names, the counts of the configs and those of the jobs without a config add up to the count of the cluster: none is counted twice |
| Accounting.UnownedIff | internal/controller/securityscanconfig_controller.go:646-651 | A job is without a config exactly when none has its label as name and its namespace as target |
| Accounting.ComputeSummary | cmd/web/main.go:765-809 | The dashboard's three loops: the numbers of Running, Completed and Failed jobs, the summed counts, the different images and the latest scan |
| Accounting.TotalsBySeverity | cmd/web/main.go:779-784 | Each severity's total is the sum of that severity's count over the Completed jobs |
| Accounting.SummaryAgreesWithConfigs | cmd/web/main.go:774-788 | The dashboard agrees with the sum over the configs on completed and failed exactly when no such job is without a config, and on active exactly when as many jobs wait for a worker as active ones have no config |
| Accounting.ReachableTotalsMissNothing | cmd/web/main.go:779-784 | Adding up only Completed jobs misses no finding in any reachable state |

## Left out

- Kubernetes client calls, caches, watches, RBAC and manager setup: replaced by the abstract store and an arbitrary interleaving.
- Pod logs, registry lookups, HTTP transport, SQL and Slack: only their success or failure and their effect on the state.
- JSON decoding, SHA-256 and duration parsing: parameters; only the search for the object and the loops over decoded data are modelled.
- Cron schedules and the length of requeue intervals: only whether a cycle comes back after the batch cooldown.
- Pod templates, volumes, resource limits, `rewriteRegistry`, condition and message texts: data without a property of this kind.
- Labels other than the config's and annotations other than the reset's: not part of the job model; the config label is its `configRef`. That a removed annotation ends the reset shows only as a patch that can fail.
- Looking up a ClusterTarget, its kubeconfig and the notification policy: one optional result each.
- The log line that slices the first 19 characters of a digest, which fails for a shorter one: the digests that registries return are longer. The theorems hold for all of them, and the runs of `Scenarios` for those of full length.
- A scheduled creation that lands while its reply is lost: no event of the machine, see the assumptions.
- A write transaction that commits after the client has given up on it and sent a later upload: attempts take effect in order.
- The body size limit and the token of the report endpoint: a rejected request is one whose transaction breaks at its first step.
- User interface, charts, CRD manifests, scripts, ScanPolicy evaluation and access control: outside the model.
- Controllers.ApiServer.RunCycle: the store is undisturbed during the call; interleavings are the business of `Protocol`, and `Cycles.CycleIsARun` connects the two. The status that it updates is the business of `Notification`.
- Cycles.ReconcileConfig: the ClusterTargets and what each of them runs are given; a config that is gone is not reconciled.
- Progress.CyclesCover: its cycles are undisturbed and without failing requests, and the names still needed are distinct and free; for one cycle `Progress.CallsCoverExactly` says what happens to those that are not.
- Notification.ConfigObject.UpdateStatus: the settings are already resolved, and no one else writes the config's status.
