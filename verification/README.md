# Verification of the Cloudflare edge operator's reconcile protocol

Two controllers keep Kubernetes `CustomHostname` resources (CRs below) and Cloudflare
custom hostnames in agreement. The Zone controller is the coordinator: once per drift
interval it lists all hostnames of a Cloudflare zone, compares them with the CRs of the zone,
and sends the CRs that differ through a bounded channel. The CustomHostname controller is the
worker: for one CR it searches Cloudflare by hostname and creates, adopts, edits or deletes.
Neither keeps a cache of Cloudflare.

This project models both controllers in Dafny and proves what they promise together.
`dafny verify dfyconfig.toml` checks it.

## Structure

| file | module | content |
|---|---|---|
| `types.dfy` | Types | CRs, Zones, Cloudflare records, configuration |
| `ssl.dfy` | SSL | drift tests, SSL parameters, response mapping, the cheap status comparison |
| `listing.dfy` | Listing | the two views of a paginated listing: bulk map and search |
| `cloudflare.dfy` | CloudflareAPI | the Cloudflare store, fates of a call, the retry loop |
| `worker.dfy` | Worker | one worker reconcile as a function of the world and the outcome of its calls |
| `reconciler.dfy` | Reconciler | the same reconcile as methods that change objects step by step, proved to agree |
| `runs.dfy` | Runs | the transition system with users, other Cloudflare clients, failures and crashes; its invariant |
| `writes.dfy` | Writes | justification of every write, safe deletes |
| `crashes.dfy` | Crashes | one record per hostname, adoption after a lost create |
| `counters.dfy` | Counters | createCount against the operation counters, sums over all CRs |
| `zonedrift.dfy` | ZoneDrift | the drift pass: events and counts |
| `zone.dfy` | ZoneController | the Zone reconcile around the pass |
| `driftchannel.dfy` | DriftChannel | the bounded channel under every interleaving |
| `convergence.dfy` | Convergence | draining a pass: termination, convergence of a zone |
| `handover.dfy` | Handover | an owner leaves and exactly one duplicate takes over |
| `quiescence.dfy` | Quiescence | what silence, failures, updates and conflicts mean |
| `restart.dfy` | Restart | what a restart finds again |
| `policies.dfy` | Policies | management and delete policies on the fields of CR and configuration |
| `outcomes.dfy` | Outcomes | what the written condition and status say, for every outcome |
| `standoff.dfy` | StandOff | a finer view in which conflict check and work interleave |
| `gauge.dfy` | SSLGauge | the TTL cache of the SSL provisioning gauge |

## How the world is modelled

- An id is a natural number, 0 for the empty string; Cloudflare never reuses one. A uid names
  one incarnation of a CR.
- A reconcile makes at most one Kubernetes write, at its end. `persisted == false` stands for a
  crash before that write, a lost write and a rejected update alike; a crash between two
  attempts of a Cloudflare call is also a cancelled attempt.
- Any read of the API server may fail: of the CR, of its Zone or token, of the CRs that share its
  hostname. A reconcile reads the clock once.
- An attempt is carried out, carried out with its response lost, or refused (429 or any other
  failure). A 404 is only ever the server's own answer. Listings show the truth at the time of
  the call. Cloudflare chooses freely whatever a request leaves unsaid; an edit with an ssl block
  may reset every setting the block does not send.
- Cloudflare may accept a second record of a hostname, as it is expected to around deletions;
  `internal/controller/zone_customhostname_drift.go:202-203` adds that it deduplicates hostnames in
  practice. For a Cloudflare that never holds two, the hypothesis of one record per hostname holds
  by itself, and the second records below do not come about.
- The worker has the default concurrency of one, so a reconcile is one step with fresh reads
  (`internal/controller/customhostname_controller.go:1113-1118`). Only StandOff splits it.
- The work queue is a set from which any CR may be taken; a reconcile that asks for a requeue or
  returns an error puts its CR back. In Runs any CR may be reconciled at any time, under any
  configuration, which covers every queue, drift pass and restart.
- `spec.hostname` is immutable (`api/saas/v1beta1/customhostname_types.go:29`); `spec.zoneRef`
  and all policies may change.

## Where the code does not do what its comments say

- `internal/controller/customhostname_controller.go:349-354` says an invalid management policy
  behaves like manage. It behaves like create: drift is not corrected
  (`Worker.UnknownPolicyActsLikeCreate`).
- `internal/controller/customhostname_controller.go:597-600` says a race between two new CRs
  heals within one drift cycle. Both end up with an id and block each other
  (`StandOff.RaceEndsInStandOff`, `StandOff.MutualConflictIsAStandOff`).
- `internal/controller/customhostname_controller.go:209-213` says a conflict stays quiet. Only the
  spec-drift branch skips conflict-marked CRs (`Quiescence.ConflictNoiseRepeats`).
- `README.md:117` says a conflict clears when the owner is deleted. It does not while the record
  survives and differs from the duplicate's spec (`Quiescence.ReleasedOwnerStrandsDuplicate`);
  `Convergence.ZoneConverges` gives the exact condition.
- A create whose response is lost and that is then retried makes a second record. The default of
  one retry (`cmd/main.go:167`) allows it; only a configuration without retries rules it out within
  a zone (`Crashes.RetriesAllowDuplicates`). The promise of one record per hostname and zone holds
  exactly for runs whose create calls reach Cloudflare at most once.
- `internal/controller/customhostname_controller.go:227-229` resolves the state by hostname, but in
  the zone of the CR only. A record of the hostname in another zone is not seen, so one record per
  hostname holds exactly if besides no create call reaches Cloudflare while the operator's record is
  in another zone (`Crashes.RunsKeepSingleMade`, `Crashes.LostCreateIsRepeatedElsewhere`,
  `Crashes.MovedCreatesAgain`).
- `docs/architecture.md:62` says the finalizer ensures deletion from Cloudflare, even across
  restarts. A record that a lost status write has kept out of `status.id` outlives its CR
  (`Crashes.LostCreateIsLeftBehind`); `Writes.RemovalLeavesRecords` says which records do.
- After an edit of `spec.zoneRef` a deletion gets a 404 from the new zone and releases the
  finalizer while the record lives on in the old one (`Writes.MovedRecordIsLeftBehind`).
- `internal/controller/customhostname_controller.go:1054-1068` leaves all drift of known CRs to the
  coordinator after a restart. With two records of a hostname the worker searches the first and
  the coordinator maps the last, so drift of one can stay hidden (`Restart.RestartIsComplete`).
- `internal/controller/zone_customhostname_drift.go:136-138` lets stale status series decay, but
  only those of the six common statuses (`ZoneDrift.ZoneGauges.CompareRecords`), and
  `internal/controller/zone_controller.go:94-99` leaves all of them behind with a removed Zone
  (`ZoneDrift.ZoneGauges.DeleteSeries`).

## Model

| member | source | states |
|---|---|---|
| `Runs.RunsKeepInv` | internal/controller/customhostname_controller.go:142-221 | In every state of every run, with crashes, lost writes, API failures, user edits and other Cloudflare clients: at most one CR per hostname has an id; the id is or was issued for that hostname; without an id nothing of Cloudflare has been reported; a conflict-marked CR has none; Ready=True means an active certificate, no errors and an id; the provisioning timer is set exactly for CRs the operator created; createCount never exceeds the operations counted |
| `Runs.EventKeepsInv` | internal/controller/customhostname_controller.go:142-221 | Each single event (reconcile with any outcome, user or external change) keeps the invariant |
| `Runs.TurnIsSound` | internal/controller/customhostname_controller.go:214-346 | One reconcile takes up a new id only for an unopposed CR, writes only sound statuses, raises createCount exactly with a create, and never reuses an id |
| `Writes.EveryWriteIsJustified` | internal/controller/customhostname_controller.go:151-216 | In every run each record a reconcile adds was missing and is asked for by an unopposed, finalized, provisioning CR, completed by the operator's defaults where the spec is silent; each record it changes did not meet the spec under manage, meets it afterwards, and keeps every setting and the SNI that the spec leaves unset; each record it removes is the terminating CR's own and no other CR's; dry-run changes nothing |
| `Writes.ReconcileWritesAreJustified` | internal/controller/customhostname_controller.go:242-328 | The same for one reconcile, stated on the differences in the store and not on the branch taken |
| `Writes.DeleteIsSafe` | internal/controller/customhostname_controller.go:431-504 | For every sequence of attempt outcomes the delete either releases the finalizer with the record gone, or keeps it and returns an error. The record survives a release exactly when it lies in a zone other than the one the CR now resolves to, or own-only found another record first; no other record is touched |
| `Writes.RemovalLeavesRecords` | internal/controller/customhostname_controller.go:151-172 | In every run, whatever removes a CR, every record outlives it but the one of its id in the zone it resolves to, and that exactly when its last reconcile calls delete |
| `Writes.MovedRecordIsLeftBehind` | internal/controller/customhostname_controller.go:474-491 | How a record survives: a user edits spec.zoneRef and deletes the CR; the delete, carried out without any failure, gets a 404 from the new zone, and the finalizer is released with the record still in the old one |
| `Crashes.CreateKeepsSingleMade` | internal/controller/customhostname_controller.go:389-424 | A creating reconcile keeps operator-made records unique per zone and hostname if and only if at most one attempt of its retry loop reaches Cloudflare, and unique per hostname in all of Cloudflare if and only if besides, when it does reach, no made record of the hostname exists in any zone |
| `Crashes.RetriesAllowDuplicates` | internal/controller/metrics.go:211-233 | Whatever becomes of the calls, a create leaves no second operator-made record of the hostname in the same zone if and only if the operator is configured without retries (the default is one), and none in any zone if and only if besides none exists yet |
| `Crashes.AtMostOneReaches` | internal/controller/metrics.go:211-233 | Without retries, or without lost responses, at most one attempt reaches Cloudflare |
| `Crashes.RunsKeepSingleMade` | internal/controller/customhostname_controller.go:227-240 | A run, wherever it crashes, never holds two operator-made records for one hostname of a zone if and only if each of its create calls reaches Cloudflare at most once; it never holds two for one hostname in any zones if and only if besides no create call reaches Cloudflare while a made record of the hostname exists in another zone. Edits, deletes and searches may be retried at will |
| `Crashes.LostCreateIsRepeatedElsewhere` | internal/controller/customhostname_controller.go:601-619 | Two records of one hostname although each create call reaches Cloudflare once: the status write of a create is lost, and a duplicate that refers to a Zone of another Cloudflare zone is not opposed, finds nothing there, creates, and holds the second id |
| `Crashes.MovedCreatesAgain` | internal/controller/customhostname_controller.go:659-695 | The same without any failure: a user edits the spec.zoneRef of a created CR, and its next reconcile creates in the new zone, next to the record left in the old one |
| `Crashes.CrashedCreateIsAdopted` | internal/controller/customhostname_controller.go:227-278 | After a create that reached Cloudflare once, stored or not, and any further events that spare its record (crashes, failures, deletions of CRs without its id, reconciles of any CR, restarts under other configurations), the next reconcile of a CR of the hostname and of the same zone that gets through adds no record and records the created id |
| `Crashes.LostCreateIsLeftBehind` | internal/controller/customhostname_controller.go:152-157 | A first create whose status write is lost, then a deletion by the user: the finalizer is released without a call, under every delete policy, and the operator's own record lives on |
| `Crashes.CreateLeavesSole` | internal/controller/customhostname_controller.go:389-424 | A create that reaches Cloudflare once leaves exactly one record of the hostname in the zone, and that record meets the spec, whether or not the status write is stored |
| `Crashes.WorkKeepsSole` | internal/controller/customhostname_controller.go:223-347 | No reconcile, failed or not and of whatever CR, adds to or takes from the one record of a hostname in a zone, unless it calls delete on that record |
| `Crashes.OtherTurnsMakeNothing` | internal/controller/customhostname_controller.go:282-346 | A reconcile that does not create makes no record and moves none to another zone or hostname |
| `Counters.RunsCountExactly` | internal/controller/customhostname_controller.go:402-419 | In every state of a run createCount is the number of create and recreate operations counted for each CR, if and only if the run loses no status write of a reconcile that has created; then, over all CRs there have ever been, removed ones included, the operations sum to the createCounts last held, and the creates to the number of CRs ever created |
| `Counters.TurnCountsExactly` | internal/controller/customhostname_controller.go:402-418 | A turn counts create for a first and recreate for a later creation, exactly when it raises createCount |
| `Convergence.ZoneConverges` | internal/controller/zone_customhostname_drift.go:76-125 | One failure-free pass and the drain of its queue as far as the members go, in any order and among any other CRs, leaves Cloudflare with a record that meets the spec of every member that was not conflict-marked over a drifted record; the reconciles that return no error are bounded. Members are managed CRs of the zone with in-zone origins, each the only CR of its hostname or the holder of its id. For hostnames with one record exactly the marked ones stay unmatched, and no later pass sends an event |
| `Convergence.SilenceIsExact` | internal/controller/zone_customhostname_drift.go:91-125 | No listing of the zone makes a pass enqueue a CR if and only if its hostname has a record and none of its records, one or several, is worth an event |
| `Convergence.StepKeepsSingle` | internal/controller/customhostname_controller.go:242-254 | No failure-free reconcile gives any hostname a second record in a zone |
| `Convergence.DrainEnds` | internal/controller/customhostname_controller.go:197-207 | A drain makes at most as many reconciles that return no error as there are CRs pending plus CRs without finalizer: finalizer requeues cannot go on |
| `Convergence.DrainExists` | internal/controller/customhostname_controller.go:1109-1119 | Every queue of live CRs can be drained but for the blocked ones: terminating CRs whose Zone does not resolve and which cannot be released without it |
| `Convergence.OnlyBlockedFail` | internal/controller/customhostname_controller.go:174-178 | With no failure of the outside only the reconcile of a blocked CR returns an error; it changes nothing and puts the CR back into the queue |
| `Convergence.BlockedStay` | internal/controller/customhostname_controller.go:174-178 | No drain gets rid of a blocked CR, or blocks another |
| `Convergence.EmptyDrainExists` | internal/controller/customhostname_controller.go:174-179 | A queue of live CRs can be drained to empty if and only if none of them is blocked |
| `Convergence.ProceedingReports` | internal/controller/customhostname_controller.go:223-347 | A failure-free reconcile of an unopposed provisioning CR, by creating, editing or adopting, leaves it reporting a record of its hostname, with Ready true exactly if the certificate is active; under manage the record meets the spec |
| `Convergence.CreatedReports` | internal/controller/customhostname_controller.go:389-424 | The creating branch ends in a status that reports the new record, without drift |
| `Convergence.EditedReports` | internal/controller/customhostname_controller.go:298-327 | The editing branch ends in a status that reports the edited record, without drift |
| `Convergence.AdoptedReports` | internal/controller/customhostname_controller.go:256-346 | The adopting branch ends in a status that reports the found record, and changes nothing in Cloudflare |
| `Convergence.StepIsLocal` | internal/controller/customhostname_controller.go:223-347 | A reconcile of one hostname leaves every record of every other hostname as it is |
| `Convergence.LookupIsTruthful` | internal/controller/zone_customhostname_drift.go:185-222 | What the bulk map says of a hostname is true of the zone: a record of it, or that there is none |
| `Convergence.PassSelects` | internal/controller/zone_customhostname_drift.go:76-125 | A pass enqueues a CR exactly when it refers to the zone and meets the drift test on the bulk map |
| `Handover.ConflictIsHandedOver` | internal/controller/customhostname_controller.go:591-630 | When the owner is deleted under always and no other finalizer holds it, whether its record still exists or not, and the next pass enqueues any of the waiting duplicates, draining the duplicates in any order leaves exactly one with an id, of a record it reports, and exactly the others in conflict; if the pass enqueues none, none changes. If the zone had no record of the hostname but the owner's, all duplicates are enqueued and at most one record remains |
| `Handover.DrainHandsOver` | internal/controller/customhostname_controller.go:591-621 | Draining, in any order, a queue with at least one CR of an unclaimed hostname settles on exactly one of them, however many there are and whatever else is queued |
| `Handover.OwnerLeaves` | internal/controller/customhostname_controller.go:431-504 | The terminating owner's reconcile removes its record or finds it gone; the owner goes exactly when no other finalizer holds it |
| `Handover.HeldOwnerBlocks` | internal/controller/customhostname_controller.go:607-619 | While another finalizer holds the terminating owner, no drain gives any duplicate an id |
| `Handover.UnnoticedStaysUnclaimed` | internal/controller/customhostname_controller.go:625-627 | A hostname none of whose CRs is enqueued is claimed by nobody, whatever else is drained |
| `Handover.MissingHostnameEnqueuesAll` | internal/controller/zone_customhostname_drift.go:91-98 | A hostname missing from Cloudflare has all its CRs enqueued, conflict-marked ones included |
| `Handover.HandingOverStep` | internal/controller/customhostname_controller.go:200-220 | Each reconcile during the hand-over, of any CR, keeps at most one new owner and everybody else pending or marked |
| `StandOff.MutualConflictIsAStandOff` | internal/controller/customhostname_controller.go:597-621 | With check and act interleaved: once two CRs of a hostname hold ids, no sequence of non-deleting reconciles admits another CR of the hostname or takes an id away, whatever third CRs there are; once those already past the check have acted, nothing is written to the hostname and neither id changes |
| `StandOff.RaceEndsInStandOff` | internal/controller/customhostname_controller.go:597-600 | How the stand-off arises: both pass the check, one creates, the other adopts, both hold the same id, nobody is in flight |
| `StandOff.WorkIsLocal` | internal/controller/customhostname_controller.go:223-347 | The acting half of a reconcile leaves the records of other hostnames alone |
| `Quiescence.QuietMeansNothingToDo` | internal/controller/zone_customhostname_drift.go:91-125 | If a pass stays silent on a finalized, unopposed, unmarked CR with status.ssl, a reconcile whose search shows the record the pass saw writes nothing to Cloudflare, and, if its reads and search succeed, changes at most id, hosts, validation records, validation errors and the Ready condition if and only if the Zone resolves and the origin is in it |
| `Quiescence.SearchAgreesWithPass` | internal/controller/zone_customhostname_drift.go:185-209 | Search and bulk map show the same for a hostname with one record in the zone |
| `Quiescence.QuietMeansNoWrite` | internal/controller/zone_customhostname_drift.go:91-125 | If a pass stays silent on a live CR of a resolving Zone, then some outcome lets its reconcile write to Cloudflare if and only if the CR would proceed, is managed outside a dry run, and some record of its hostname has drifted; with one record of the hostname none has, unless the CR is conflict-marked |
| `Quiescence.EnqueuedMeansSomethingToDo` | internal/controller/zone_customhostname_drift.go:91-125 | Conversely an enqueued managed CR that would proceed has something to do, whatever its conditions say: its failure-free reconcile, if its search shows what the pass saw, writes to Cloudflare or changes more than those details |
| `Quiescence.FailureIsRetried` | internal/controller/zone_customhostname_drift.go:118-122 | A stored reconcile raises consecutiveErrors exactly if it fails and clears it exactly if it gets through; after a failure the next pass enqueues the CR whatever it finds |
| `Quiescence.FailureStaysEnqueued` | internal/controller/zone_customhostname_drift.go:118-122 | Through any run every pass enqueues a CR with a recorded failure, whatever it finds, until a reconcile of the CR gets through or marks it as a conflict |
| `Quiescence.ReadyReportsDuration` | internal/controller/customhostname_controller.go:557-576 | A reconcile reports a provisioning duration exactly when it turns Ready true, from anything else, of a CR that the operator created; it is the time since the last creation, under the Zone, the hostname and the method of the certificate, else of the spec, else http |
| `Restart.RestartIsComplete` | internal/controller/customhostname_controller.go:1069-1094 | In every state of the invariant, a CR whose reconcile would write to Cloudflare, at once or after its finalizer requeue, is admitted on its Create event or enqueued by the first pass of the Zone it resolves to, whatever listings search and pass are shown, if and only if it is not a managed, unopposed CR with an id whose hostname has both a drifted record and one worth no event |
| `Restart.HiddenWriteIsLost` | internal/controller/zone_customhostname_drift.go:202-209 | In each such state one listing loses the edit: the search sees it from its first record, the pass from its last |
| `Restart.SecondRecordHides` | internal/controller/zone_customhostname_drift.go:202-203 | How such a state is reached: another client of Cloudflare creates a second, different record of the hostname of a settled CR |
| `Restart.OneRecordHidesNothing` | internal/controller/customhostname_controller.go:1069-1094 | A hostname with at most one record in the zone hides nothing, so no write is lost |
| `Restart.ReleaseIsAdmitted` | internal/controller/customhostname_controller.go:1079-1085 | A CR whose reconcile, under any outcome, takes the finalizer off is admitted on its Create event, so no deletion is stranded by a restart; every terminating CR is, and of the others exactly those without an id, whatever the policies |
| `Quiescence.WritingMeansMissingOrDrifted` | internal/controller/customhostname_controller.go:242-328 | A live CR whose reconcile writes has no record of its hostname in the zone, and creates, or some drifted one, and edits |
| `Quiescence.UpdatesWakeForUserChanges` | internal/controller/customhostname_controller.go:1087-1089 | Among all events the update predicate admits exactly user edits of the spec and the start of a deletion, and none of the worker's own writes |
| `Quiescence.StatesAreTruthful` | internal/controller/zone_customhostname_drift.go:333-346 | For every reachable status the four states do not depend on the order of their tests beyond conflict first: ready excludes errors and implies id and active certificate |
| `Quiescence.StatesHavePriority` | internal/controller/zone_customhostname_drift.go:329-346 | Conflict is counted before ready, and ready before errors, even where several are recorded |
| `Quiescence.ConflictNoiseRepeats` | internal/controller/zone_customhostname_drift.go:99-121 | A conflict-marked CR is enqueued by a pass if and only if its record has not drifted, and the record reports any status or the CR has errors; reconciling it, its zone being readable, changes that in no way |
| `Quiescence.ReleasedOwnerStrandsDuplicate` | internal/controller/customhostname_controller.go:158-172 | An owner released under never is gone and leaves a drifted, conflict-marked duplicate that nobody opposes but no pass enqueues; its Create event at a restart is admitted |
| `SSL.CheapComparisonIsExact` | internal/controller/zone_customhostname_drift.go:250-303 | The comparison is nil if and only if status.ssl equals the refreshed one outside hosts, validation records and validation errors; without status.ssl, if and only if Cloudflare reports no SSL status |
| `SSL.DriftIsExact` | internal/controller/zone_customhostname_drift.go:99 | The drift tests find every field that differs from what the spec asks, and nothing else |
| `SSL.RefreshSilencesComparison` | internal/controller/customhostname_controller.go:970-1005 | Refreshing and then comparing finds nothing, zero and nil times included |
| `SSL.CfStateFrom` | internal/controller/customhostname_controller.go:931-1044 | The create, list and edit mappings give the hostname status and the same status.ssl, which shows the response field by field: hosts, validation records and error messages in order, zero times as nil |
| `CloudflareAPI.EditClosesDrift` | internal/controller/customhostname_controller.go:280-328 | After one edit, even if Cloudflare resets every SSL setting not sent, the record meets the spec, and every setting the spec is silent about keeps its non-empty value |
| `CloudflareAPI.CreateHasNoDrift` | internal/controller/customhostname_controller.go:882-917 | A created record meets the spec under any defaults; a default applies exactly where the spec is silent; method and type fall back to http and dv |
| `Worker.MadeMeetsSpec` | internal/controller/customhostname_controller.go:362-382 | The worker's create request makes a record of the zone and hostname that meets the spec and applies the operator's defaults |
| `Worker.EditedMeetsSpec` | internal/controller/customhostname_controller.go:298-308 | The worker's edit request turns a drifted record into the same record that meets the spec and keeps what the spec leaves unset |
| `Listing.IndexAgreesWithSearch` | internal/controller/zone_customhostname_drift.go:185-222 | For any split of a duplicate-free listing into pages the bulk map and the search by hostname agree on every hostname |
| `Listing.DuplicatesSplitTheViews` | internal/controller/zone_customhostname_drift.go:202-209 | With a duplicate they differ: the search answers the first record, the map holds the last |
| `Listing.FindByHostname` | internal/controller/customhostname_controller.go:527-545 | The pager loop answers the first record of exactly the hostname across pages; a failed page matters only if no match came before |
| `Listing.ListCloudflareHostnames` | internal/controller/zone_customhostname_drift.go:185-222 | The pager loop builds the map of the whole listing, and fails exactly when a page fails |
| `Listing.FirstMatchIsFirst` | internal/controller/customhostname_controller.go:534-540 | The search finds the first listed record of the hostname, and nothing only if there is none |
| `Listing.IndexIsLast` | internal/controller/zone_customhostname_drift.go:205-209 | The map holds the last listed record of each listed hostname, and no other hostname |
| `CloudflareAPI.Cloudflare.CfRetry` | internal/controller/metrics.go:211-233 | The retry loop refines the recursive retry: same store, same answer, same number of attempts |
| `CloudflareAPI.RetryStopsAtFirst` | internal/controller/metrics.go:207-233 | Every call of any kind is attempted until the first attempt that succeeds, is rate limited or cancelled, or is the last one allowed, and no further; the answer is that of this attempt and the store what all of them have done in order |
| `CloudflareAPI.Cloudflare.Do` | internal/controller/integration_test.go:133-302 | One attempt against the in-memory Cloudflare: carried out, carried out with the response lost, or refused |
| `CloudflareAPI.RetryKeepsCloudWF` | internal/controller/metrics.go:211-233 | Whatever call is retried, ids stay fresh and the history of issued ids only grows |
| `CloudflareAPI.RetriedNew` | internal/controller/customhostname_controller.go:389-401 | A retried create adds exactly one record per attempt that reaches Cloudflare, changes no other, and a success names one of them |
| `CloudflareAPI.CreatedIsIssued` | internal/controller/customhostname_controller.go:402-419 | A successful create answers with a non-empty id that Cloudflare has issued for the hostname |
| `CloudflareAPI.RetriedEdit` | internal/controller/customhostname_controller.go:309-327 | However often an edit is carried out, at most the addressed record changes, and as by a single edit |
| `CloudflareAPI.RetriedDelete` | internal/controller/customhostname_controller.go:474-491 | After success or 404 the zone has no record of the id; no other record is touched under any outcome |
| `CloudflareAPI.FindChangesNothing` | internal/controller/customhostname_controller.go:229-240 | A retried search changes nothing and, if it succeeds, answers the first match |
| `Worker.OneWritingCall` | internal/controller/customhostname_controller.go:142-221 | A reconcile changes Cloudflare by one writing call and its retries, of a kind and under conditions told apart in advance, or not at all |
| `Worker.SearchReplyIsTruthful` | internal/controller/customhostname_controller.go:227-240 | What a successful search answers is true of the zone |
| `Worker.OriginMatchesAtLabel` | internal/controller/customhostname_controller.go:189-195 | While the domain is unknown every origin passes; then an origin passes exactly when it is the domain or a name below it at a label boundary |
| `Worker.UnknownPolicyActsLikeCreate` | internal/controller/customhostname_controller.go:349-360 | A management policy outside the enum gives, for every live CR, the turn that create gives; it is the turn of manage if and only if manage would not edit |
| `Policies.ObserveWritesNothing` | internal/controller/customhostname_controller.go:158-165 | A CR whose own management policy is observe, or that has none while the default is observe, writes nothing to Cloudflare under any outcome, and when terminating is released without its Zone |
| `Policies.CreateChangesNothing` | internal/controller/customhostname_controller.go:286-289 | Own or inherited create changes no existing record |
| `Policies.ManageEdits` | internal/controller/customhostname_controller.go:298-327 | Own or inherited manage, whatever the default, brings a drifted record to the spec |
| `Policies.BothCreate` | internal/controller/customhostname_controller.go:242-253 | Own or inherited manage or create makes the missing record, which meets the spec |
| `Policies.NeverDeletesNothing` | internal/controller/customhostname_controller.go:166-172 | A terminating CR whose own delete policy is never, or that has none while the default is never, has nothing removed, and is released without its Zone |
| `Policies.AlwaysDeletes` | internal/controller/customhostname_controller.go:474-503 | Own or inherited always, whatever the default, removes exactly the CR's record and releases it |
| `Policies.OwnOnlyDeletesOwn` | internal/controller/customhostname_controller.go:446-503 | Own or inherited own-only removes the CR's record exactly if the search shows that id, and releases the CR either way |
| `Policies.WithoutIdIsReleased` | internal/controller/customhostname_controller.go:150-157 | A terminating CR without an id is released without its Zone and without a call, whatever its policies |
| `Policies.DryRunReleases` | internal/controller/customhostname_controller.go:434-442 | A dry run releases a terminating CR and writes nothing |
| `Outcomes.ConditionTellsOutcome` | internal/controller/customhostname_controller.go:142-346 | For every outcome the live reconcile adds the finalizer, returns an error or writes a condition, and the reason of the condition holds if and only if the reconcile ended in that way: no Zone, foreign origin, conflict, failed search, waiting, dry run, failed create, failed edit, or through; the condition is about the current generation, and true exactly if it got through and the certificate is active |
| `Outcomes.GettingThroughTells` | internal/controller/customhostname_controller.go:242-346 | Every reconcile that gets through, after however many failed attempts, writes the id, statuses and certificate of the record of its hostname that Cloudflare then has, no errors, and Ready exactly if the certificate is active; a creation is counted and starts the provisioning timer anew, nothing else touches either |
| `Outcomes.FailureKeepsReport` | internal/controller/customhostname_controller.go:316-320 | A reconcile that does not get through leaves what was reported, the count and the timer, and takes up another id only if its edit of that record has failed |
| `Outcomes.SettledIsQuiet` | internal/controller/zone_customhostname_drift.go:91-125 | After a reconcile that gets through, a pass that sees the record enqueues the CR if and only if the record does not meet the spec, under every policy |
| `Outcomes.PassLooksAtRecordOnly` | internal/controller/zone_customhostname_drift.go:69-73 | Whether a pass enqueues a CR does not depend on its policies, finalizer, generation or deletion |
| `Outcomes.PassTakesItsOwn` | internal/controller/zone_customhostname_drift.go:224-235 | A pass takes up the CRs that resolve to its Zone and those that leave the namespace out, and leaves alone those that name the Zone in another namespace |
| `Outcomes.ZoneNeedsToken` | internal/controller/customhostname_controller.go:659-695 | A Zone is found under its name in the namespace of the reference, else of the operator, and is of use only with its token |
| `Outcomes.NoZoneNoCall` | internal/controller/customhostname_controller.go:174-188 | Without it nothing is called: a live CR records one more error under ZoneError, a terminating one that needs Cloudflare keeps its finalizer and returns an error |
| `Reconciler.CustomHostnameReconciler.Reconcile` | internal/controller/customhostname_controller.go:142-221 | The imperative reconcile leaves cluster, Cloudflare, counters, reported durations and result as the specified turn says, for every outcome of its reads, calls and write; a missing CR changes nothing |
| `Reconciler.CustomHostnameReconciler.ReconcileLive` | internal/controller/customhostname_controller.go:183-220 | Zone, origin, finalizer and conflict checks in order, a failed list of peers ending in an error |
| `Reconciler.CustomHostnameReconciler.ReconcileDeleting` | internal/controller/customhostname_controller.go:151-180 | The release paths that need no Cloudflare, then the client or an error, then the delete |
| `Reconciler.CustomHostnameReconciler.ReconcileCloudflareState` | internal/controller/customhostname_controller.go:223-347 | Search, then observe, create or adopt, as the specified turn says |
| `Reconciler.CustomHostnameReconciler.AdoptAndCorrect` | internal/controller/customhostname_controller.go:256-346 | Adoption, drift correction and status refresh, with one status write at the end |
| `Reconciler.CustomHostnameReconciler.CorrectIfDrifted` | internal/controller/customhostname_controller.go:280-329 | The edit is made exactly for drift under manage outside a dry run, and the status then reports its response |
| `Reconciler.CustomHostnameReconciler.CorrectDrift` | internal/controller/customhostname_controller.go:298-327 | The drift-correcting edit with retries; on success the status reports the edit response, otherwise it is untouched |
| `Reconciler.CustomHostnameReconciler.HandleCreate` | internal/controller/customhostname_controller.go:362-425 | Dry-run condition, create with retries, error or bookkeeping |
| `Reconciler.CustomHostnameReconciler.RecordCreation` | internal/controller/customhostname_controller.go:402-424 | Counter, timer, createCount, id and status after a create, stored in one write |
| `Reconciler.CustomHostnameReconciler.HandleDelete` | internal/controller/customhostname_controller.go:431-504 | Dry-run, own-only lookup, delete with 404 as success, finalizer release |
| `Reconciler.CustomHostnameReconciler.DetectConflict` | internal/controller/customhostname_controller.go:601-621 | The loop over peers reports a conflict exactly when another CR of the hostname holds an id, and then only marks the CR; a failed list is an error and no conflict |
| `Reconciler.CustomHostnameReconciler.RequeueOrReady` | internal/controller/customhostname_controller.go:546-589 | Errors cleared, the duration reported under its guard, Ready exactly when the certificate is active, one status write |
| `Reconciler.CustomHostnameReconciler.ObserveDuration` | internal/controller/customhostname_controller.go:566-573 | The duration goes under the method of the certificate, else of the spec, else http |
| `Reconciler.CustomHostnameReconciler.SetError` | internal/controller/customhostname_controller.go:633-636 | One more error, Ready false with the reason, stored unless the write is lost |
| `Reconciler.CustomHostnameReconciler.SetCondition` | internal/controller/customhostname_controller.go:638-650 | The Ready condition for the current generation, stored unless the write is lost |
| `Reconciler.Cluster.UpdateStatus` | internal/controller/customhostname_controller.go:646-649 | A status update stores the status alone, or nothing and an error |
| `Reconciler.Cluster.Update` | internal/controller/customhostname_controller.go:200-204 | An update stores the finalizer; a terminating object goes with its last finalizer |
| `ZoneDrift.ZoneGauges.DetectCustomHostnameDrift` | internal/controller/zone_customhostname_drift.go:44-166 | A pass sends exactly the events of its CRs, and its counts are conserved: states sum to the CRs of the zone, managed plus orphan is total, drifted is the number of sends. If either list fails, no event is sent and no hostname gauge changes |
| `ZoneDrift.ZoneGauges.Enqueue` | internal/controller/zone_customhostname_drift.go:65-125 | The loop over CRs: events in list order, one state count per CR of the zone, the set of known hostnames |
| `ZoneDrift.ZoneGauges.Consider` | internal/controller/zone_customhostname_drift.go:83-124 | One event exactly for a CR that meets the drift test; a conflict-marked one is passed over only in the spec-drift branch |
| `ZoneDrift.ZoneGauges.Tally` | internal/controller/zone_customhostname_drift.go:135-148 | The loop over the map: managed is the number of Cloudflare hostnames with a CR, the rest are orphans, and the status counts sum to managed |
| `ZoneDrift.ZoneGauges.CompareCRs` | internal/controller/zone_customhostname_drift.go:65-130 | The half of the pass over the CRs, with the state gauges set |
| `ZoneDrift.ZoneGauges.CompareRecords` | internal/controller/zone_customhostname_drift.go:132-155 | The half of the pass over the records: a status series is set if its status is common or present, and keeps its old value otherwise |
| `ZoneDrift.EventsAreExact` | internal/controller/zone_customhostname_drift.go:76-125 | An event is sent for a CR if and only if a listed CR of that identity refers to the zone and meets the test |
| `ZoneDrift.StatesPartition` | internal/controller/zone_customhostname_drift.go:329-346 | The four state counts add up to the CRs that refer to the zone |
| `ZoneDrift.StateCountIsExact` | internal/controller/zone_customhostname_drift.go:76-82 | The count of a state is the number of listed CRs that refer to the zone and are in that state |
| `ZoneDrift.KnownHostnamesAreOwn` | internal/controller/zone_customhostname_drift.go:77-82 | A hostname is known to the pass exactly if a CR has it that names the Zone, in its namespace or in none |
| `DriftChannel.ChannelIsFaithful` | internal/controller/zone_customhostname_drift.go:170-183 | Under every interleaving of sender, receiver and shutdown: the buffer never exceeds its capacity; until shutdown received, buffered and unsent events are the sequence in order; afterwards events may be lost but none is duplicated or overtaken |
| `DriftChannel.MoveKeepsFaithful` | internal/controller/zone_customhostname_drift.go:172-182 | Each move keeps this |
| `DriftChannel.NoStandstill` | internal/controller/zone_customhostname_drift.go:168-183 | Every move uses up one of finitely many, and when nobody can move before a shutdown all events have been received |
| `SSLGauge.KeyIsInjective` | internal/controller/metrics.go:264 | Cache keys of distinct zone and hostname pairs differ when zone names hold no slash |
| `SSLGauge.SlashCollides` | internal/controller/metrics.go:264 | Keys need that: every series whose zone name holds a slash shares its key with a series of another zone |
| `SSLGauge.OneMethodAtRest` | internal/controller/metrics.go:266-270 | With no call in flight there is at most one method per zone and hostname |
| `SSLGauge.SSLProvisioning.SetGauge` | internal/controller/metrics.go:263 | The unlocked half of setting a series keeps every series in flight or cached |
| `SSLGauge.SSLProvisioning.Register` | internal/controller/metrics.go:264-277 | The locked half enters the series and removes the one of another method, whatever came in between |
| `SSLGauge.SSLProvisioning.SetSSLProvisioningDuration` | internal/controller/metrics.go:262-278 | Both halves in a row: the series is set and cached for the TTL |
| `SSLGauge.SSLProvisioning.CleanExpired` | internal/controller/metrics.go:282-292 | Exactly the unexpired entries stay; every series left is in flight or has an unexpired entry, and no unexpired one goes |
| `SSLGauge.SSLProvisioning.RemoveZone` | internal/controller/zone_controller.go:94-99 | The series of a removed Zone go and no others; the cache entries stay until they expire |
| `ZoneController.DomainIsFixed` | internal/controller/zone_controller.go:150-162 | Between edits of the Zone's spec, the domain that origins are checked against is the first non-empty name that a reconcile of the uninitialized Zone fetches and stores; later failures and answers do not change it, and the Zone is initialized exactly when there was such a reconcile |
| `ZoneController.SpecEditRefetches` | internal/controller/zone_controller.go:150-162 | However often the spec is edited, only the reconciles since the last edit count: the first non-empty name one of them fetches and stores is the domain, and until then the Zone is uninitialized again |
| `ZoneController.ZoneReconciler.Reconcile` | internal/controller/zone_controller.go:88-148 | A pass is made, and a requeue asked for, exactly when the Zone and its token are read and the Zone is or becomes initialized; a missing token stops even an initialized Zone; a failed pass is no error; a failed read of the Zone changes nothing; another error changes nothing but the initialized gauge; a removed Zone loses its series |
| `ZoneController.ZoneReconciler.RunCycle` | internal/controller/zone_controller.go:134-147 | One cycle sends the events of the pass, none if a list failed, and leaves no expired series |
| `ZoneController.ZoneReconciler.Forget` | internal/controller/zone_controller.go:91-100 | Exactly the series of the removed Zone go |
| `ZoneController.ZoneReconciler.InitializeZone` | internal/controller/zone_controller.go:183-210 | Name and condition change together, if the zone is fetched and the update stored, and otherwise not at all |

## Left out

- The Cloudflare SDK, HTTP, timeouts, write pacing and the Zone GET's own retries: a call has an
  outcome, and the Zone GET an answer or none.
- Tokens and secrets: only whether the token can be read (`credentials`, `token`).
- Condition messages and transition times, logs, drift details in logs, API call metrics and
  histograms: nothing reads them back.
- That the provisioning duration is set once per provisioning cycle: a Ready condition that flaps
  sets it again, because the start time is never cleared. Quiescence.ReadyReportsDuration says when
  it is set.
- Widths of the int32 counters and the wall clock: counters are unbounded, times are given.
- Rate limiting, backoff and order of the work queue: the drain theorems hold for every order.
- `cmd/main.go` flags, leader election, CRD validation, generated code, charts.
- Convergence.ZoneConverges: that later passes are silent is stated for hostnames with one record;
  with several it holds exactly when Convergence.SilenceIsExact says.
- Quiescence.EnqueuedMeansSomethingToDo: stated for searches that show what the pass saw, which
  Quiescence.SearchAgreesWithPass gives for hostnames with one record; with several the worker may
  find a settled record where the pass saw a drifted one.
- Quiescence.QuietMeansNothingToDo: the status part needs such a search too; the writes are settled
  for every search by Quiescence.QuietMeansNoWrite.
- Handover.ConflictIsHandedOver: for an owner without other finalizers; Handover.HeldOwnerBlocks
  gives the other case. Waiting CRs are conflict-marked or enqueued, and refer to the same Zone. An
  owner's record in another zone is left behind, as Writes.DeleteIsSafe says.
- Crashes.CrashedCreateIsAdopted: for the next reconcile in the same zone; one in another zone
  creates again, as Crashes.LostCreateIsRepeatedElsewhere says. And for create calls of which one attempt reached Cloudflare; how many
  records any other leaves is what CloudflareAPI.RetriedNew says.
- SSLGauge.OneMethodAtRest: for zone names without a slash, which Kubernetes names never hold.
