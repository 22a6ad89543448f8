# A verified model of ampulla's BackupPolicy controller

ampulla reconciles a `BackupPolicy`: it asks COSI for a bucket and credentials, generates a
repository password once, and keeps a k8up `Schedule` in step with the policy, or removes it when
the service backs itself up. The Go code is a sequence of API calls. Between any two of them anybody
else may change the cluster, the cache may lag, and any call may fail and abandon the rest.

This project models that reconciler as a transition system and proves what it promises over all
runs. `dafny verify dfyconfig.toml` checks everything.

## How it is built

| file | content |
|---|---|
| `Api.dfy`, `Config.dfy`, `BucketSecret.dfy`, `Names.dfy` | the API types, resolution against the defaults, the COSI Secret, object names |
| `ServerSideApply.dfy`, `Objects.dfy`, `ScheduleView.dfy`, `StatusView.dfy` | forced apply on field maps with owners, the applied configurations, and how what they leave is read |
| `Reconciler.dfy` | one reconcile as a `Worker` (program counter and locals); `Attempt` makes its next API call on the `Store` through a `View` of the cache, `Call` adds failures (not made, or made with the answer lost), `Fresh` runs a whole reconcile undisturbed |
| `Decisions.dfy` | what such an undisturbed reconcile comes to, as one table over the fields of the objects |
| `Tracking.dfy`, `Idempotence.dfy` | what a reconcile knows at each call, and that repeating a finished one does nothing |
| `Protocol.dfy` | the system of one policy: store, label-filtered informers with undelivered events, queue bit, timer, one reconcile at a time, and every other actor; a run is any sequence of steps |
| `Wakeups.dfy`, `Truth.dfy`, `Provisioning.dfy`, `Agreement.dfy`, `Provenance.dfy`, `FilteredCache.dfy`, `FreshRuns.dfy` | properties of all runs of that system |
| `OwnWrites.dfy` | what the controller still has to write when nobody acts but COSI, as a measure that none of its own steps raises |
| `EndlessRuns.dfy`, `Liveness.dfy` | endless fair runs with stale caches, and that they end Ready |
| `Lapses.dfy` | three things that can go wrong, each as a run from the very beginning |
| `Racing.dfy`, `Isolation.dfy`, `Convergence.dfy` | many racing reconcilers; two policies in one cluster; progress with COSI answering |
| `Controller.dfy` | the Go methods as methods of a class over the mutable cluster, each taking protocol steps only |

Properties of runs are proved once, about the transition system, and hold of the methods because
`Valid()` ties the state of the class to a run at every point.

What the model takes from its surroundings: the policy is CRD-valid (the API server refuses a spec
that is not), generations start at 1 and grow with every spec change, watch events arrive in order,
a forced apply follows the ownership rules written out in `ServerSideApply.Apply`. The defaults, the
hash and the generated password are arbitrary.

## Where the code does less than its comments say

* `names.go` says that names differing only past the cut still get different object names. They do
  exactly when their four hash bytes differ (`LongNamesApartIffHashesDiffer`), and every shortened
  name has a short twin with the very same object name, which is a valid policy name itself if the
  cut is clean (`EveryShortenedNameHasATwin`).
* A shortened name is a valid object name exactly when the cut does not fall behind a dot
  (`DerivedNameValidity`); there is a valid policy name where it does (`CutBehindADot`).
* The comment on `applyOwned` says that a field no longer asked for is dropped. That holds of fields
  nobody else owns; the exact condition for the result to depend on the last configuration alone is
  `HistoryIndependentIff`, and for the status `StatusRoundTripIff`. Editing a policy back and forth
  can cost a check that somebody else set (`AnEditCanCostAForeignCheck`), and a rejected policy can
  go on naming a bucket (`ARejectedPolicyCanNameABucket`).
* `ensureRepositoryPassword` rests on a cached read. It leaves a password behind exactly if what the
  cache showed is still there with one, or if the cache showed nothing and the create found the
  place free or a password in it (`PasswordBehindIff`). Without outsiders that is always so
  (`NoScheduleWithoutPassword`). With them, a Schedule can lack a password through a Secret without
  one that the cache does not show, which an undisturbed reconcile runs into only if it carries no
  label (`PasswordUnlessOccupied`, `AnOccupiedPlaceGetsNoPassword`), or through a Secret that is gone
  or emptied and that the cache still shows (`AStaleReadMissesTheLoss`).
* `Resolve` and `desiredPhase` test the mode differently. They agree exactly on the CRD's modes
  (`ModeTestsAgree`, `UnknownModeSlipsThrough`).
* A failed status write can leave a Ready status naming the previous bucket next to a Schedule on
  the new one, for every policy that is to be backed up (`StatusMayNameTheOldBucket`). Only the
  write of such a Schedule parts the two (`StatusAndSchedulePartIff`), and when the controller is
  calm again they agree (`CalmIsNotParted`).

## Model

| member | source | states |
|---|---|---|
| `Wakeups.NoLostWakeup` | controllers/backuppolicy_controller_manager.go:96-141 | over every run, with all actors free to do anything and every call free to fail: idle, empty queue, nothing undelivered and no timer imply that a fresh reconcile would change nothing, and that the stored status reads as the one it wants iff nobody else holds a value at a field that one leaves empty |
| `Wakeups.OnlyTheSecretsGoUnnoticed` | controllers/backuppolicy_controller_manager.go:361-371 | the same with the timer running, provided the two unwatched Secrets and an unlabelled Schedule are as the last reconcile left them: what `SetupWithManager` watches covers all the rest |
| `Wakeups.CredentialsAreLookedAtAgain` | controllers/backuppolicy_controller_manager.go:46-53 | in every reachable idle state with an empty queue, a conclusion that rested on the credentials Secret or waits for it has its timer running |
| `Decisions.ReconcileDecides` | controllers/backuppolicy_controller_manager.go:96-271 | from every store, a reconcile with fresh reads does what one table over the fields of the objects says and nothing else: skipped, rejected, waiting for the bucket, for the access or for the credentials, failing on unusable credentials or on a repository Secret without a password, serving the bucket, or backing up; in each case with the whole status field by field, the message with COSI's last error, the 0, 10 or 3600 seconds until the next look, and every object that is left, the generated password included |
| `Truth.EveryStatusWrittenIsTruthful` | controllers/backuppolicy_controller_manager.go:116-138 | every status ever written describes the spec at its observed generation: Failed iff that spec does not resolve (with exactly its unmet requirements), Ready iff endpoint and credentials Secret are set, bucket set when Ready, schedule set iff Ready in mode Schedule and then the resolved one |
| `Truth.StatusIsTruthful` | controllers/backuppolicy_controller_manager.go:116-138 | the same of the stored status in every state reachable without others writing the status; its generation never exceeds the current one |
| `Truth.ObservedGenerationNeverGoesBack` | controllers/backuppolicy_controller_manager.go:121-124 | no step of a run on which nobody else writes the status lowers the stored observedGeneration, however stale the cache |
| `Truth.WantDescribes` | controllers/backuppolicy_controller_manager.go:171-271 | the status wanted for any justified conclusion describes the policy's spec; its fields are consistent with each other |
| `Provisioning.ReadyMeansProvisioned` | controllers/backuppolicy_controller_manager.go:235-270 | in every state reachable without others writing the status or the Schedule, Ready at the current generation implies: in mode Schedule the Schedule has exactly the resolved jobs, no other owner, and this policy's Secret references; in mode BucketOnly it is absent |
| `Agreement.CalmStatusNamesTheScheduledBucket` | controllers/backuppolicy_controller_manager.go:260-270 | on runs on which nobody else writes the status: when idle with nothing queued or undelivered after a conclusion to back up, the status is Ready and names the bucket and endpoint the Schedule points at |
| `Agreement.CalmIsNotParted` | controllers/backuppolicy_controller_manager.go:260-270 | on the same runs, whatever was concluded: when idle with nothing queued or undelivered and the policy still there, a status that says Ready for the current spec of a policy to be backed up names the bucket and endpoint of the Schedule |
| `Agreement.CalmWaitsAreExplained` | controllers/backuppolicy_controller_manager.go:196-218 | on the same runs: when idle with nothing queued or undelivered, a policy waits only for a claim or an access that COSI does not call ready, its message carries word for word the error COSI reports on it now, or none, and the status names the bucket the claim is bound to |
| `Agreement.StatusAndSchedulePartIff` | controllers/backuppolicy_controller_manager.go:126-138 | in every state reachable without others writing the status or the Schedule, where the two agree: a step makes a status that says Ready for the current spec name another bucket or endpoint than the Schedule's iff it is a reconcile's write, answered or not, of a Schedule for another bucket or endpoint than the status names |
| `Lapses.StatusMayNameTheOldBucket` | controllers/backuppolicy_controller_manager.go:256-260 | from every start with a policy to be backed up, a run on which nobody acts but COSI, the controller is not restarted and no call fails but the last, to a status that says Ready at the current generation and a Schedule on another bucket |
| `Agreement.ARejectedPolicyCanNameABucket` | controllers/backuppolicy_controller_manager.go:126-138 | where somebody else wrote the status's bucket, a reconcile of a rejected policy leaves it there although it wants none |
| `Provenance.EveryScheduleWriteIsFounded` | controllers/backuppolicy_controller_manager.go:189-260 | in every run each Schedule write comes after the same reconcile saw a claim and an access with `readyToUse` true and a complete S3 Secret; it points at that Secret's bucket with the references derived for the policy |
| `Provenance.TheLogIsTrue` | controllers/backuppolicy_controller_manager.go:189-271 | for every step from every state: what a reconcile is said to have seen is in the cache, or for the credentials in the store, and each of its writes of the repository Secret, the Schedule or the status is logged as it is stored |
| `Provenance.EqualStatusIsNotWritten` | controllers/backuppolicy_controller_manager.go:126-138 | a status that reads as the wanted one is not written, so no failing call matters; any other is written, once, or the reconcile fails |
| `Racing.PasswordIsWrittenOnce` | controllers/backuppolicy_controller_manager.go:313-348 | over any run of any number of reconcilers with arbitrarily stale reads, aborted calls and mode switches, the repository Secret never changes or disappears once it exists |
| `Racing.PasswordWasGenerated` | controllers/backuppolicy_controller_manager.go:329-342 | over the same runs, the repository Secret, once there, is labelled and holds under the key the Schedule refers to exactly a password generated by one of the calls of the run, and nothing else |
| `Racing.PasswordIsThatOfItsCall` | controllers/backuppolicy_controller_manager.go:329-342 | the same on every run of one controller with failures and restarts, from a store without the Secret and with nobody else writing it |
| `Racing.NoScheduleWithoutPassword` | controllers/backuppolicy_controller_manager.go:256-262 | over the same runs the password is not empty, and it exists whenever a Schedule does |
| `Racing.PasswordBehindIff` | controllers/backuppolicy_controller_manager.go:313-348 | from any state, with caches as stale as may be: a reconcile gets past the password by a cached read that shows one or by a create, and has one behind it until the next reconcile begins iff one was there or the create found the place free, as long as no outsider touches the Secret meanwhile |
| `Racing.PasswordUnlessOccupied` | controllers/backuppolicy_controller_manager.go:316-344 | an undisturbed reconcile with fresh reads that concludes to back up leaves a password iff it did not find an unlabelled Secret without one in that place |
| `Lapses.AStaleReadMissesTheLoss` | controllers/backuppolicy_controller_manager.go:318-328 | from every labelled start with a policy to be backed up, a run on which COSI acts and one outsider deletes the repository Secret, with no failing call and no restart, and a reconcile concludes that the policy is backed up, with a Schedule and no password |
| `Lapses.AnOccupiedPlaceGetsNoPassword` | controllers/backuppolicy_controller_manager.go:316-344 | from every start with a policy to be backed up and an unlabelled Secret without a password in its place, a run on which nobody acts but COSI, with no failing call and no restart, to the conclusion that the policy is backed up, with a Schedule and no password |
| `Idempotence.ReconcileIsIdempotent` | controllers/backuppolicy_controller_manager.go:96-141 | from any store, a second successful reconcile with fresh reads leaves the store as the first did and concludes the same, whichever passwords are generated |
| `Idempotence.FixedPoint` | controllers/backuppolicy_controller_manager.go:171-271 | where a reconcile concluded and what it rests on still stands, a fresh one changes nothing and concludes the same |
| `Tracking.AttemptStaysOnTrack` | controllers/backuppolicy_controller_manager.go:171-271 | each call of a reconcile that sees the watched objects as they are keeps it on the path a fresh reconcile takes |
| `Tracking.AttemptJustified` | controllers/backuppolicy_controller_manager.go:171-271 | on any view of the cluster, what a reconcile holds at each call is justified by what it read |
| `Tracking.NobodyRunsAhead` | controllers/backuppolicy_controller_manager.go:196-218 | a justified reconcile that has come past the claim, or past the access, holds one with `readyToUse` true, and one that reports to wait for it holds one where it is false or absent |
| `FreshRuns.FreshIsARun` | controllers/backuppolicy_controller_manager.go:96-141 | an undisturbed reconcile with fresh reads is one of the protocol's runs |
| `FreshRuns.RoundsAreARun` | controllers/backuppolicy_controller_manager.go:96-141 | and so is any number of rounds of a reconcile and COSI's answer, with no failing call, no restart and nobody acting but COSI, which only provides what is missing |
| `Liveness.EventuallyReady` | controllers/backuppolicy_controller_manager.go:96-141 | on every endless run on which nobody else ever writes the status, whatever else went before: if from some point on no call fails, the controller is not restarted, nobody but COSI acts and only to provide what is missing, COSI answers, and deliveries, queue, calls and timers have their turn in any order, then a policy that can be Ready, with caches as stale as may be, comes to a state that never changes again: Ready at its generation on the bucket and endpoint of the credentials that are then stored, with the Schedule for that bucket and a repository Secret in place, or no Schedule in mode BucketOnly, and with nothing left to do |
| `Liveness.CalmIsReady` | controllers/backuppolicy_controller_manager.go:361-371 | in every state reachable without others writing the status that is idle with nothing queued or undelivered, the Secrets as last seen and nothing left for COSI to answer, a policy that can be Ready is so in the same sense |
| `Liveness.WritesUntilReady` | controllers/backuppolicy_controller_manager.go:350-359 | after any run on which nobody else writes the status, once idle and told of the last spec, and from then on with COSI only providing what is missing, failures and restarts included, the controller's calls change the store at most 31 times plus three for each undelivered event of claim or access |
| `Liveness.SuchRunsExist` | controllers/backuppolicy_controller_manager.go:96-141 | from every start with a policy that can be Ready there is an endless run that is as `EventuallyReady` asks for from its very first step on |
| `Convergence.ConvergesAndStays` | controllers/backuppolicy_controller_manager.go:171-271 | for a policy that resolves, with COSI fulfilling requests, at most one round more than milestones were missing (at most four in all) reaches Ready at the generation, on a status nobody else wrote, and no later round changes the store |
| `OwnWrites.OwnWritesAreFinite` | controllers/backuppolicy_controller_manager.go:350-359 | wherever a run has led on which nobody else writes the status, once the controller is idle and knows the last spec: over any further run on which nobody acts but COSI, with stale caches, failing calls, retries and restarts, its calls change the store at most 13 times plus three for each undelivered event of claim or access plus six for each change of COSI's; the skipped status write and the idempotent applies are what it rests on |
| `OwnWrites.OwnWakeupsAreFinite` | controllers/backuppolicy_controller_manager.go:361-371 | over the same runs the watches wake the controller only a number of times bounded likewise: its own writes do not keep it going |
| `OwnWrites.NewsWakes` | controllers/backuppolicy_controller_manager.go:361-371 | a delivery wakes the controller iff it brings news of the policy, the claim, the access or the Schedule; the repository Secret wakes nobody |
| `Convergence.RoundProgresses` | controllers/backuppolicy_controller_manager.go:189-233 | a round that does not conclude Ready strictly decreases the number of missing milestones; no round increases it |
| `ServerSideApply.HistoryIndependentIff` | controllers/backuppolicy_controller_manager.go:350-359 | after any sequence of configurations the object is the one the last alone gives iff every foreign field displaced earlier is displaced by the last too |
| `ServerSideApply.HistoryIndependent` | controllers/backuppolicy_controller_manager.go:352-356 | on an object only ampulla writes it is always exactly the last configuration |
| `ServerSideApply.ApplyIdempotent` | controllers/backuppolicy_controller_manager.go:357-359 | applying the same configuration again changes nothing, on any object |
| `ScheduleView.JobsAfterAnyHistory` | controllers/objects.go:107-144 | after any configurations were applied to ampulla's Schedule, the jobs read back are the last one's: no prune, check or retention entry survives |
| `ScheduleView.AnEditCanCostAForeignCheck` | controllers/backuppolicy_controller_manager.go:350-359 | on a Schedule whose check another manager set, a policy that asks for none keeps it, but loses it for good if it was edited to ask for one in between |
| `ScheduleView.JobsReadBack` | controllers/objects.go:127-140 | the jobs read from a built Schedule are the resolved ones; an empty cron expression means no job; absent counts read as zero |
| `ScheduleView.ScheduleConfigPoints` | controllers/objects.go:110-126 | over any object, the applied Schedule has the bucket's id and endpoint and references this policy's credentials and repository Secrets by the right keys |
| `ScheduleView.ConfigsAreLabelled` | controllers/objects.go:40-70 | every applied configuration carries the managed label with the policy's name and the policy as controller |
| `ScheduleView.PruningNeverKeepsEverything` | controllers/objects.go:130-136 | for a CRD-valid spec that resolves, a Schedule with a prune job holds a non-empty retention that reads back as the resolved one |
| `ScheduleView.PruningKeepsSomethingIff` | controllers/objects.go:151-168 | for any spec that resolves, counts are sent iff the spec's retention is all zero or has a positive count |
| `Objects.RetentionFor` | controllers/objects.go:151-168 | whatever order the counts are visited in, exactly the positive ones are kept |
| `Objects.ScheduleFor` | controllers/objects.go:107-144 | the step-by-step build yields the Schedule's configuration |
| `StatusView.StatusRoundTripIff` | controllers/backuppolicy_controller_manager.go:126-166 | the status read back after applying the wanted one equals it iff nobody else holds a value at a field the wanted one leaves empty |
| `StatusView.SkippedWriteWouldChangeNothing` | controllers/backuppolicy_controller_manager.go:126-138 | on a status as ampulla left it, the write is skipped exactly when it would change nothing |
| `StatusView.StatusFor` | controllers/backuppolicy_controller_manager.go:143-166 | the builder sets phase and generation always and every other field iff it carries something |
| `Isolation.IsolatedIff` | internal/backup/names.go:29-37 | no reconcile of one policy, on any views and with any failures, changes anything of another's, both live and resolvable, iff they are in different namespaces or their names meet under neither written suffix |
| `Isolation.MeetingInterferes` | internal/backup/names.go:29-37 | where they meet there is a cluster holding both, live and resolvable, in which an undisturbed reconcile of the one with fresh reads changes what belongs to the other |
| `Isolation.RunsAreIsolated` | controllers/backuppolicy_controller_manager.go:189-260 | whole runs of one policy's calls, on any views and with any failures, leave such another policy's objects as they are |
| `Isolation.ClusterCallIsCall` | controllers/backuppolicy_controller_manager.go:189-260 | a call lifted to the cluster does to the policy's own objects exactly what the call on its store does |
| `Isolation.ClaimFits` | controllers/objects.go:72-80 | over whatever was there before, the claim asks for `S3` in the resolved class |
| `Isolation.AccessFits` | controllers/objects.go:82-98 | the access asks for `S3` in the resolved class, on the claim of the same policy, for both reading and writing, and for the very Secret that is then read for the bucket |
| `Isolation.ScheduleFits` | controllers/objects.go:110-126 | the Schedule takes both keys from that Secret and the password from the Secret that is created for it |
| `Names.CollisionIff` | internal/backup/names.go:42-51 | two derived names are equal iff the names are, or both are shortened with equal kept prefix and hash bytes, or one is the other's kept prefix, dash and hash |
| `Names.NamesAreSpelled` | internal/backup/names.go:29-51 | each of the five names is the policy's name with its written ending if that has at most 253 characters, and otherwise 253 characters: what fits of the policy's name, a dash, the first four hash bytes of the whole name in lower-case hex, and the ending |
| `Names.LongNamesApartIffHashesDiffer` | internal/backup/names.go:39-41 | shortened names with the same kept prefix stay apart iff their truncated hashes differ |
| `Names.EveryShortenedNameHasATwin` | internal/backup/names.go:39-51 | for every shortened name there is another, unshortened one with the same derived name; for a valid policy name it is a valid one itself iff the cut is clean |
| `Names.CutBehindADot` | internal/backup/names.go:39-51 | a valid policy name of 247 characters whose claim's name is not valid, whatever the hash |
| `Names.SecretsNeverMeet` | internal/backup/names.go:33-34 | no policy's credentials Secret has the name of any policy's repository Secret |
| `Names.DerivedNameValidity` | internal/backup/names.go:8-51 | for a subdomain name the slice is in range, the result is at most 253 bytes and exactly 253 if shortened, and a subdomain iff the kept prefix does not end in a dot |
| `Names.NamesAreValid` | internal/backup/names.go:29-37 | the same for the derived names of a policy: each fits, exactly if shortened, and is a subdomain iff its cut is clean |
| `Names.SubdomainIffWellFormed` | internal/backup/names.go:8-10 | the label-by-label definition of a subdomain agrees with the character-by-character one |
| `Config.ResolveSpec` | internal/backup/config.go:61-94 | overwriting the retention and appending errors computes the resolution |
| `Config.ThePolicyWins` | internal/backup/config.go:61-101 | for every spec that resolves, each of the three schedules and two classes is the policy's own value if it has one and the default otherwise; the mode is the policy's, Schedule if it has none; the retention is the policy's, or 7 daily, 4 weekly and 6 monthly if that is all zero |
| `Config.RejectedForWhatIsLacking` | internal/backup/config.go:77-91 | a policy is rejected iff neither it nor the defaults provide a class, or in mode Schedule a backup schedule; the reasons are exactly those, in order |
| `Config.CrdAdmits` | api/v1/backuppolicy_types.go:15-114 | the specs taken as CRD-valid are those with one of the two modes or none and no negative count |
| `Config.ResolveReportsExactlyTheUnmet` | internal/backup/config.go:77-91 | resolution fails iff a requirement is unmet, and reports exactly the unmet ones, once each, in order |
| `Config.ResolveIsAClosure` | internal/backup/config.go:61-94 | a resolved configuration fed back as a spec resolves to itself |
| `Config.ResolvedIsUsable` | internal/backup/config.go:77-88 | a resolved policy has both classes, a mode, a retention that is not all zero and, outside BucketOnly, a backup schedule |
| `Config.ModeTestsAgree` | internal/backup/config.go:84-86 | the two tests of the mode are each other's negation iff the mode is one the CRD admits or empty |
| `Config.UnknownModeSlipsThrough` | internal/backup/config.go:86-88 | with any other mode a policy without a backup schedule resolves and is not treated as BucketOnly |
| `BucketSecret.BucketFromSecret` | internal/backup/bucket.go:42-64 | the loop collects exactly the missing keys in order |
| `BucketSecret.AcceptedIffComplete` | internal/backup/bucket.go:42-64 | a Secret is accepted iff its protocol is `S3` and all four required values are there and not empty; the bucket is made of its values; otherwise exactly the missing keys are named, in the order of the checks |
| `FilteredCache.CachedReadsAgree` | controllers/cache.go:25-38 | in every reachable state a synced cache returns for claim, access and repository Secret what the store holds, if outsiders neither strip the label nor occupy the names |
| `FilteredCache.SyncedCacheAgreesIff` | controllers/cache.go:13-19 | a synced cache agrees with the store iff the object carries the label |
| `FilteredCache.CredentialsNeedTheApiReader` | controllers/backuppolicy_controller_manager.go:297-304 | at the call that reads them: through the cache, COSI's unlabelled Secret would look missing; read past it, a complete one is used |
| `FilteredCache.CacheNeverShowsCredentials` | controllers/backuppolicy_controller_manager.go:297-304 | and so on every run on which COSI does not label them, whenever a reconcile comes to read them |
| `Controller.BackupPolicyManager.Reconcile` | controllers/backuppolicy_controller_manager.go:96-141 | with others acting before every call and any call failing, it is a run of the protocol from the first call to its outcome, which it returns |
| `Controller.BackupPolicyManager.DesiredPhase` | controllers/backuppolicy_controller_manager.go:171-254 | ends in an error with the reconcile given up, or with the phase of the conclusion the protocol has come to for this policy; it creates no Secret but with the password generated for it |
| `Controller.BackupPolicyManager.PhaseOnClaim` | controllers/backuppolicy_controller_manager.go:205-271 | the same for its part behind a ready claim |
| `Controller.BackupPolicyManager.ProvisionBackups` | controllers/backuppolicy_controller_manager.go:235-271 | the same for its last part |
| `Controller.BackupPolicyManager.GetBucket` | controllers/backuppolicy_controller_manager.go:297-311 | returns the bucket of the Secret as stored, not found if there is none, or an error that ends the reconcile |
| `Controller.BackupPolicyManager.EnsureRepositoryPassword` | controllers/backuppolicy_controller_manager.go:313-348 | succeeds only with a Secret in the store or a password in what the cache shows; the only Secret it ever creates holds the password generated for it, and having created it that is what the store holds; otherwise it ends the reconcile |
| `Controller.BackupPolicyManager.DeleteSchedule` | controllers/backuppolicy_controller_manager.go:285-295 | where it succeeds there is no Schedule in the store, whether there was one or not |
| `Controller.BackupPolicyManager.ProcessNext` | controllers/backuppolicy_controller_manager.go:363-371 | taking the policy off the queue, reconciling and requeueing are steps of the protocol |
| `Controller.BackupPolicyManager.QuietMeansDone` | controllers/backuppolicy_controller_manager.go:168-170 | whenever these methods leave the controller quiet, another reconcile would change nothing |

## Left out

- Convergence.ConvergesAndStays: counts rounds with fresh reads and COSI answering in between; with stale caches `EventuallyReady` holds without a bound on the number of reconciles, which depends on how late events are delivered.
- Racing.NoScheduleWithoutPassword: assumes that nobody outside ampulla writes the repository Secret or creates a Schedule where there is none.
- The wording of messages: a message is modelled by its format and arguments.
- SHA-256, random numbers and base64: the hash is any function to four bytes, the password any non-empty string.
- Names are strings of one-byte characters; the limit on label values is not modelled.
- API server internals beyond get, create, delete and forced apply: admission, conflicts, JSON, defaulting of fields.
- The owner reference and the type of the repository Secret, and `blockOwnerDeletion`: a Secret is modelled by its label and its data.
- Times: a timer may fire at any moment; the intervals only say whether there is one. Backoff of errors is a requeue.
- Garbage collection through owner references, and a policy deleted and created again under its name: one incarnation is modelled, and a deleting or absent one makes a reconcile do nothing.
- The lookup of the policy's kind for the owner reference, which can only fail on a scheme without it: it counts as a failed call.
- What k8up, restic and the COSI driver do with the objects; logging, events, command line, metrics and leader election.
