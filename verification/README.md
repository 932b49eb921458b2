# Octo Fleet control plane, verified

Octo Fleet is the control plane between a web console and the daemons that run agent
runtimes. It keeps three shared tables (runtimes, upgrade tasks, bots), an event log, a
registry of live event streams and two in-memory caches, and any number of requests work
on them at the same time. This project models the protocols over that state and proves
what they keep on every run.

Tables are maps, an SQL statement or a locked transaction is one step, clocks are
integers, and random tokens and new row ids are fresh inputs. Code that changes tables in
place is a class with the same fields and methods; each method is proved against functions
that say what one statement does, and the state machines that interleave statements are
built from those same functions.

| file | what it covers |
|---|---|
| `Text.dfy`, `Versions.dfy` | Go's string functions; the version order `isVersionOlder` and `semverLike` |
| `VersionGates.dfy`, `UpgradeRequests.dfy` | who may request an upgrade, what closes one, what is advertised |
| `UpgradeTasks.dfy` | the statements on upgrade tasks: claim, report, close-out, timeout sweep |
| `UpgradeRuns.dfy` | all interleavings of upgrade requests with those statements: one task in progress per owner's daemon |
| `UpgradeTiming.dfy` | how long a request can hold its slot |
| `InstallSecrets.dfy` | the install secret of a cc-octo task on the same runs, and the endpoint that hands it out |
| `TtlStores.dfy` | the secret store and the credential cache against their write histories |
| `Providers.dfy` | the provider registry and the sweep timeouts it yields |
| `EventLog.dfy`, `SseHub.dfy`, `SseDelivery.dfy` | the event log, the channel registry, delivery to one connection at every interleaving |
| `SseFrames.dfy`, `SseConnection.dfy`, `SseRuns.dfy` | the bytes on the wire and a WHATWG parser (HTML, sections 9.2.5 and 9.2.6); the connection as code; that code as a run of the delivery machine |
| `Runtimes.dfy` | the runtime table |
| `Bots.dfy`, `BotDeltas.dfy` | the bot handlers; the delta log against the bot table |
| `BotProtocol.dfy` | bot provisioning with every statement interleaved |
| `Routing.dfy` | to which runtime a bot can be handed |
| `Owners.dfy`, `Handlers.dfy` | what owners can do to each other; the handlers over several tables as code |

## Where the code differs from its documentation

The model follows the code. Each point below is proved, with the condition under which the
documentation holds.

- The close-out comment promises that a task closes once the reported version is at least
  the target (modules/runtime/upgrade.go:696-698). Two spellings of one version, such as
  `v1.0` and `1.0`, are neither equal strings nor ordered, so such a report closes nothing
  (`VersionGates.CloseOutMissesOtherSpellings`). It happens for every release version that may
  be published with the prefix `v` and whose numbers fit an int (`VersionGates.CloseOutMissesAPrefix`).
- The hub's cleanup comment promises never to delete a newer channel
  (modules/runtime/sse.go:108-109). Load and delete are two steps; a registration between
  them loses its entry (`SseHub.DeleteHitsAnother` says exactly when,
  `SseHub.StaleDeleteUnmapsNewConnection` is such a run).
- The request comment says that all requests for one daemon queue on one lock
  (modules/runtime/upgrade.go:362-365). If the last runtime row is deleted after the checks,
  the locking select finds no row and holds nothing. From every such moment of every run two
  tasks of the daemon can end up in progress (`UpgradeRuns.MissedLockBreaksTheSlot`,
  `UpgradeRuns.SlotCanBreak`); `UpgradeRuns.SafeExactlyIf` says exactly from where they cannot.
- "Hint and gate never disagree" (modules/runtime/api.go:744-745) has three exceptions. For one
  and the same version there are two: a device that reports no daemon version gets no hint, but
  its request passes; and the names `dev` and `unknown` against each other, which needs a latest
  version written into the table by hand, since the endpoint that publishes versions takes only
  semver-like ones (modules/runtime/api.go:405-408)
  (`VersionGates.DaemonHintMatchesGate`, `VersionGates.DaemonHintMatchesGateForReleases`).
  The third is a daemon whose rows are linked to several devices, as after a registration from
  a new device with fewer runtimes: each device has its hint, but the gate reads the one with
  the greatest id. `UpgradeRequests.HintMatchesGateIff` is the exact condition,
  `UpgradeRequests.TwoDevicesDisagree` the case with released versions only.
- The fetch promises the same payload on every fetch
  (modules/runtime/bot_provision_fetch.go:28-29). The token is always the same; the uid is
  only if no second mint wrote between read and claim (`BotProtocol.PayloadsAgree`,
  `BotProtocol.FetchedPayloadOverRun`, `BotProtocol.OldUidIsHandedOut`).
- The mint is described as possible only from a draft (modules/runtime/bot.go:373). Its
  update has no status guard, so a mint that read the draft earlier undoes an archive
  (`BotProtocol.ArchiveIsUndone`). An archive is final exactly if no such mint is left
  (`BotProtocol.ArchiveIsFinalIff`).
- The fetch route is meant to match the heartbeat's routing
  (modules/runtime/bot_provision_fetch.go:72-76). It does until a runtime is deleted and
  registered again under a new id (`Routing.RoutesAgreeIff`, `Routing.SplitIsReached`).

## Model

| member | source | states |
|---|---|---|
| `Versions.Parse` | modules/runtime/api.go:820-839 | the parser returns the number list of the core after prefix, build and pre-release are cut, or nothing |
| `Versions.IsVersionOlder` | modules/runtime/api.go:814-865 | the loop answers true exactly if the two versions are in the declarative order `Older` |
| `Versions.CompareNumbers` | modules/runtime/api.go:847-864 | the padded comparison loop finds the first difference, of any two lists of any lengths |
| `Versions.OlderIsStrictPartialOrder` | modules/runtime/api.go:814-865 | on all strings, special words and unparsable ones included, the order is irreflexive, asymmetric and transitive |
| `Versions.IncomparableIffSamePadded` | modules/runtime/api.go:847-864 | two parsable versions are incomparable exactly if they are equal after padding with zeros |
| `Versions.SamePaddedIff` | modules/runtime/api.go:850-855 | equal after padding means that literal zeros at the end of either list make the two one list |
| `Versions.TrailingZero` | modules/runtime/api.go:850-855 | a zero at the end of either list never changes the comparison |
| `Versions.TrailingZeroIsIgnored` | modules/runtime/api.go:814-865 | for a parsable version without a suffix, `.0` at its end never changes an answer of `isVersionOlder`, on either side |
| `Versions.SemverParses` | modules/runtime/api.go:431-434 | a semver-like string parses if and only if each number fits a 64-bit int, and then to those numbers |
| `Versions.SemverOrder` | modules/runtime/api.go:814-865 | of two releases whose numbers fit an int one is older exactly if its numbers are lexicographically smaller, a missing third one being zero; prefixes and suffixes play no part |
| `Versions.SignIsKept` | modules/runtime/api.go:823-829 | a sign at the start cuts nothing: it belongs to the number |
| `Versions.IncomparableIsNotTransitive` | modules/runtime/api.go:814-865 | off the parsable strings incomparability is not an equivalence, with three witnesses |
| `VersionGates.ClosedMeansRefused` | modules/runtime/upgrade.go:730-733 | a report that closes a runtime task to any version makes both runtime gates refuse a new one from it |
| `VersionGates.ClosedDaemonMeansRefused` | modules/runtime/upgrade.go:683-694 | the same for the daemon's exact-match close-out and its gate |
| `VersionGates.ProviderGateIff` | modules/runtime/upgrade.go:157-162 | among parsable versions the provider gate lets a request through if and only if the two are no spellings of one version and a report of the starting version would not close the task |
| `VersionGates.UnreleasedAtTheGates` | modules/runtime/upgrade.go:144-165 | what is no release: `dev` and `unknown` may go to any other published version, a provider without a version may not, and a missing plugin may be installed in any release |
| `VersionGates.ReleasesAreNewest` | modules/runtime/api.go:815-818 | every release is newer than `dev`, `unknown` and a missing version, and never older |
| `VersionGates.DaemonHintMatchesGate` | modules/runtime/upgrade.go:210-219 | for one and the same version of the daemon, hint and gate agree if and only if nothing is published, or a version is reported and it is not `dev` against `unknown` or the reverse |
| `VersionGates.DaemonHintMatchesGateForReleases` | modules/runtime/cc_octo.go:94-109 | for one and the same version and a semver-like latest one they agree if and only if a version is reported at all |
| `VersionGates.ComputeDaemonHint` | modules/runtime/cc_octo.go:94-109 | the scan shows a hint exactly if the first reported daemon version is older than a published one |
| `VersionGates.FirstVersionIsFirst` | modules/runtime/cc_octo.go:99-104 | of several components with one name the first counts |
| `VersionGates.ComputePluginHint` | modules/runtime/cc_octo.go:64-85 | the scan shows the latest version exactly if some entry of that plugin is outdated |
| `VersionGates.PluginHintMatchesGate` | modules/runtime/upgrade.go:257-317 | with one entry per plugin the hint appears exactly when the gate lets an update through |
| `VersionGates.CloseOutMissesOtherSpellings` | modules/runtime/upgrade.go:730-733 | among parsable versions the close-out means "not older than the target" if and only if the two are not different spellings of one version |
| `VersionGates.CloseOutMissesAPrefix` | modules/runtime/upgrade.go:730-733 | for every release version with the prefix `v` that may be published and whose numbers fit an int, reporting it without the prefix is not older than the target and closes nothing |
| `VersionGates.CloseOutMissesOnePointZero` | modules/runtime/upgrade.go:730-733 | for example target `v1.0`, report `1.0` |
| `UpgradeRequests.UpgradeInit` | modules/runtime/upgrade.go:46-108 | a request is planned exactly if the space matches, a runtime of the daemon is online and its component's rule accepts, the daemon's version being that of the greatest device id among its rows; which refusal in every other case; the plan is for the caller's own daemon and runtime and the published version, and a secret goes with it exactly for a cc-octo install, with credentials given |
| `UpgradeRequests.CreateDaemonUpgradeTask` | modules/runtime/upgrade.go:184-232 | planned exactly if the daemon gate accepts the version that the device reports; which refusal otherwise |
| `UpgradeRequests.CreatePluginUpgradeTask` | modules/runtime/upgrade.go:235-341 | planned exactly for the caller's runtime, the matching plugin, a strictly older or missing version, and given credentials when cc-octo is installed; which refusal otherwise |
| `UpgradeRequests.CreateComponentUpgradeTask` | modules/runtime/upgrade.go:112-181 | planned exactly for the caller's runtime of that provider and an accepted version; which refusal otherwise |
| `UpgradeRequests.ProviderRequestIff` | modules/runtime/upgrade.go:112-181 | in the fields of the tables: a runtime's request is accepted if and only if it names the caller's runtime of that daemon and provider, and that reports an older version, or `dev` or `unknown` other than the published one |
| `UpgradeRequests.PluginRequestIff` | modules/runtime/upgrade.go:235-341 | likewise for the two plugins, each with its provider, and with the credentials of an install |
| `UpgradeRequests.DaemonRequestIff` | modules/runtime/upgrade.go:184-232 | likewise for the daemon, by what the device with the greatest id reports |
| `UpgradeRequests.ClosedIsNotAcceptedAgain` | modules/runtime/upgrade.go:705-743 | whatever reported version closes a task, a new request from that version to the same target is refused |
| `UpgradeRequests.HintMatchesGateIff` | modules/runtime/api.go:746-752 | for a daemon with any number of devices: the hint of a device agrees with the gate if and only if this device is behind just when the one with the greatest id is behind or reports nothing |
| `UpgradeRequests.HintMatchesGateWhatever` | modules/runtime/upgrade.go:70-80 | a device's hint agrees with the gate for all versions the devices may report if and only if it is the device with the greatest id |
| `UpgradeRequests.TwoDevicesDisagree` | modules/runtime/db.go:26-37 | for any two releases, one older than the other: a daemon that registers again from a new device with fewer runtimes leaves a hint on the old device that the gate refuses |
| `UpgradeRequests.OneIsOlderThanTwo` | modules/runtime/api.go:814-865 | such releases exist: `1.0` and `2.0` |
| `UpgradeRequests.PluginsPairUp` | modules/runtime/cc_octo.go:12-38 | `octo` goes with openclaw and `cc-octo` with claude, one to one, and nothing else matches at all |
| `UpgradeTasks.TaskTable.ClaimPendingUpgrade` | modules/runtime/upgrade.go:634-672 | claims a newest pending task of the key, which becomes dispatched and keeps the rest of its row, and none only if there is none |
| `UpgradeTasks.TaskTable.UpgradeReport` | modules/runtime/upgrade.go:540-596 | the answer for every case: OK exactly if the task exists, is the caller's and is in a status from which the target may be reported, and then the task is in it; not found, forbidden or conflict otherwise, changing nothing; eviction exactly after a failed cc-octo task |
| `UpgradeTasks.TaskTable.CompleteUpgradeIfMatched` | modules/runtime/upgrade.go:683-694 | completes exactly the in-progress tasks of that key, component and version, task by task; any other task is as before |
| `UpgradeTasks.TaskTable.CompleteUpgradeIfMatchedWithRuntime` | modules/runtime/upgrade.go:705-743 | completes exactly the candidates of that runtime with a matching version, returns exactly their ids and touches nothing else |
| `UpgradeTasks.TaskTable.TimeoutStaleUpgrades` | modules/runtime/upgrade.go:748-788 | one pass over the buckets, in any order of the providers, has on each task the effect of its bucket, whatever the providers are called |
| `UpgradeTasks.TransitionsAreOneStep` | modules/runtime/upgrade.go:601-629 | the transition table allows a report exactly if the task is in progress and the target is failure or the one successor of its status |
| `UpgradeTasks.AcceptedReportMovesForwards` | modules/runtime/upgrade.go:601-629 | an accepted report raises the rank; no report ends in pending, dispatched, completed or timeout |
| `UpgradeTasks.PassIsComplete` | modules/runtime/upgrade.go:748-788 | after a pass no in-progress task of any component is older than its bucket's timeout |
| `UpgradeTasks.TimedOutIff` | modules/runtime/upgrade.go:748-788 | what a pass does to any task, in seconds and in the columns: timed out exactly if in progress and older than 120 for the daemon, 600 for the plugins, its own for a provider, 1800 for the rest |
| `UpgradeTasks.PassSparesOthers` | modules/runtime/upgrade.go:748-788 | a pass leaves ended tasks and tasks within their timeout alone |
| `UpgradeRuns.AtMostOneInProgress` | modules/runtime/upgrade.go:366-447 | on every interleaving in which each locking select finds a row, a (space, daemon, owner) has at most one committed task in progress |
| `UpgradeRuns.RunsKeepSlot` | modules/runtime/upgrade.go:388-414 | on those runs, once a request has counted, its key stays free until it commits |
| `UpgradeRuns.RunsKeepLocks` | modules/runtime/upgrade.go:388-395 | on every run a held row is its key's lowest and held once, uncommitted ids are unique, and only the daemon's tasks download or restart |
| `UpgradeRuns.MissedLockBreaksTheSlot` | modules/runtime/upgrade.go:388-395 | at every moment of every run at which a request has gone past its select without a row, wherever it is, with or without a secret, and whatever row the key has by then, the run has a continuation without another miss in which two tasks of the key are in progress |
| `UpgradeRuns.SafeExactlyIf` | modules/runtime/upgrade.go:388-447 | no such continuation exists if and only if every request past its select holds its row, no key has two tasks in progress, and the key of every request past its count is free |
| `UpgradeRuns.SlotCanBreak` | modules/runtime/api.go:779-812 | a request that has missed is reached from the start, for every key, when the last runtime is deleted in between, and so is a run with two tasks in progress |
| `UpgradeRuns.EndedForGood` | modules/runtime/upgrade.go:683-743 | on every run a task keeps its owner, component, runtime, versions and creation time, its rank never falls while open, and once ended it stays ended |
| `UpgradeRuns.EveryTaskWasRequested` | modules/runtime/upgrade.go:366-447 | on every run a committed task has the owner's daemon, component, runtime and versions of a request that has begun |
| `UpgradeRuns.CompletedMeansReported` | modules/runtime/upgrade.go:683-743 | on every run a completed task's target was reported: the same version for the daemon, the same or a newer one of its runtime for the rest |
| `UpgradeRuns.ReportCompletes` | modules/runtime/upgrade.go:683-743 | and a report completes exactly the tasks in progress that it reaches |
| `UpgradeRuns.RequestAlone` | modules/runtime/upgrade.go:366-414 | the statements of a request up to the count, with nothing between them: it ends exactly if the key has a task in progress |
| `UpgradeRuns.CountedRequestAlone` | modules/runtime/upgrade.go:416-447 | the rest of them commit exactly the requested row, pending, and its secret before |
| `UpgradeTiming.SweepsAreComplete` | modules/runtime/upgrade.go:748-788 | at any moment of any run a task in progress was touched at most its timeout before its bucket's last sweep |
| `UpgradeTiming.SlotIsReleased` | modules/runtime/upgrade.go:748-788 | if a component's bucket is swept at least every D seconds, no task in progress is older than 5(120+D) for the daemon and 3(T+D) for anything else, T being 600 for the plugins, the provider's own, or 1800 |
| `UpgradeTiming.RunsKeepAge` | modules/runtime/upgrade.go:601-672 | the reason: a task may be T+D older for each status it has left, since each step raises the rank and resets its time |
| `InstallSecrets.InstallSecretAvailable` | modules/runtime/upgrade.go:428-447 | on every interleaving of put, commit, report, close-out, eviction, sweep and expiry, a committed install in progress has exactly its secret in the store for 600 seconds from the put |
| `InstallSecrets.NoSecretForUpgrades` | modules/runtime/upgrade.go:324-327 | a task that is not an install never has a secret |
| `InstallSecrets.NoSecretIsForgotten` | modules/runtime/upgrade.go:428-447 | on every run a secret that was put is still needed, or its task was timed out by a sweep, which leaves it to its expiry, or its eviction is on the way: after a failed commit, a reported failure or a close-out |
| `InstallSecrets.EvictedForGood` | modules/runtime/cc_octo_secret.go:61-65 | after that eviction the secret is out of the store on every continuation of the run |
| `InstallSecrets.AnswersOnEveryRun` | modules/runtime/cc_octo_fetch.go:91-117 | what the fetch answers for any cc-octo task at any moment: the put secret, "go on without", or a conflict, and when each |
| `InstallSecrets.AcceptedIsInProgress` | modules/runtime/cc_octo_fetch.go:91-98 | the statuses the fetch accepts are exactly those a cc-octo task can be in before it ends |
| `InstallSecrets.EachAcceptedStatusIsReached` | modules/runtime/cc_octo_fetch.go:91-98 | and a run leads an install task to each of them |
| `InstallSecrets.FetchCcOctoConfig` | modules/runtime/cc_octo_fetch.go:33-118 | a secret leaves only to the task's owner, for the task's runtime, while the task is in progress; every refusal and its reason; the store's history is unchanged |
| `TtlStores.SecretStore.Put` | modules/runtime/cc_octo_secret.go:40-45 | the store stays equal to its write history; the map loses exactly its expired entries and gains the new one |
| `TtlStores.SecretStore.Get` | modules/runtime/cc_octo_secret.go:47-59 | a hit exactly if the last write of the key is a put at most 600 seconds ago, whatever sweeps ran |
| `TtlStores.SecretStore.Evict` | modules/runtime/cc_octo_secret.go:61-65 | the key is gone for every later read |
| `TtlStores.SecretStore.SweepLocked` | modules/runtime/cc_octo_secret.go:69-76 | drops exactly the expired entries and changes no later answer |
| `TtlStores.VisibleIff` | modules/runtime/cc_octo_secret.go:40-59 | what a reader sees, without the store: a secret exactly if the last write of its key is a put of it at most 600 seconds ago |
| `TtlStores.VerifyCache.Get` | internal/auth/middleware.go:142-150 | a hit is the last stored result within its time to live; a miss of one means the cap emptied the cache since |
| `TtlStores.VerifyCache.Set` | internal/auth/middleware.go:152-160 | never more than 10000 entries, and what the cap forgets is exactly everything before |
| `TtlStores.VerifyCache.EvictExpired` | internal/auth/middleware.go:128-140 | the eviction loop drops exactly the expired entries and changes no answer |
| `TtlStores.HitsAreRecent` | internal/auth/middleware.go:239 | with the callers' 60 seconds, a hit is the result last set under the key at most 60 seconds ago |
| `TtlStores.SuffixKnowsBest` | internal/auth/middleware.go:155-158 | what the cache remembers since the cap struck agrees with the whole history |
| `Providers.NewProviderSnapshot` | modules/runtime/provider.go:33-42 | the last row of a name counts, the active names are the names of active rows |
| `Providers.ActiveNamesAgree` | modules/runtime/provider.go:52-69 | list and test of active names agree if and only if no later row disables an active name, always with unique names |
| `Providers.ActiveTimeouts` | modules/runtime/api.go:909-912 | the sweeper passes exactly the active providers with their timeouts |
| `Providers.TimeoutsArePositive` | modules/runtime/provider.go:57-62 | so every component, known or not, has a positive timeout, as the slot bound needs |
| `Providers.SweepTimeoutIs` | modules/runtime/api.go:909-912 | end to end from the rows: a component with an active row is swept after the timeout in its last row, or 600 seconds if that has none; any other after 1800 |
| `Providers.FallbackIs` | modules/runtime/provider.go:72-80 | without a successful load exactly claude and openclaw are active, with 600 and 720 seconds |
| `Providers.Registry.Reload` | modules/runtime/provider.go:114-124 | a failed or empty load keeps the last snapshot, so the registry never becomes empty |
| `EventLog.Log.QuerySince` | modules/runtime/event_log.go:66-77 | returns the oldest rows of the scope above the cursor, at most the limit |
| `EventLog.ScanIs` | modules/runtime/event_log.go:66-77 | those are exactly the matching ids, ascending |
| `EventLog.PageIs` | modules/runtime/event_log.go:66-77 | a page holds matching rows only, ascending and at most the limit; those it lacks come later, and then it is full |
| `EventLog.PagesAreTheWholeLog` | modules/runtime/event_log.go:66-77 | asking page after page with the last id as cursor yields the whole log, nothing lost or repeated, for every page size |
| `EventLog.Log.PruneOlderThan` | modules/runtime/event_log.go:87-106 | terminates in total/1000+1 rounds; no old row is left, every newer and every concurrently inserted row is, and the result is exactly the number removed |
| `SseHub.Hub.Cleanup` | modules/runtime/sse.go:113-119 | as one step it removes the entry only while it is the caller's |
| `SseHub.HalvesAreTheCleanup` | modules/runtime/sse.go:113-119 | its load and its delete with nothing between them are the whole cleanup |
| `SseHub.LatestOwnsIffUndisturbed` | modules/runtime/sse.go:110-119 | on every run of the real steps the newest connection is reachable exactly if no delete ran since it registered and it did not clean up |
| `SseHub.DeleteHitsAnother` | modules/runtime/sse.go:113-118 | on every run, a delete about to happen hits an entry of another connection if and only if its caller is not the newest connection and nothing has removed the newest one's entry yet |
| `SseHub.OneStepCleanupIsSafe` | modules/runtime/sse.go:110-119 | with cleanups in one step it would be reachable until its own cleanup |
| `SseHub.StaleDeleteUnmapsNewConnection` | modules/runtime/sse.go:113-118 | with two steps it is not: a four-step run |
| `SseDelivery.RegisterBeforeReplayLosesNothing` | modules/runtime/sse.go:251-289 | on every run whose connection keeps its registry entry (no newer registration, no older connection's stale delete), a published event above the cursor is written, in the replay result or in the channel, unless it found the channel full, lay beyond the replay limit or behind a failed query, or was pruned before the query; later prunes do no harm |
| `SseDelivery.NothingElseIsLost` | modules/runtime/sse.go:251-289 | on every run at all, an event that is none of these took one of the named ways out |
| `SseDelivery.WaysOut` | modules/runtime/sse.go:125-140 | when an event takes each way out: it is published into a channel with 16 waiting, or after its entry is gone, lies behind a failed query or outside the page of a successful one, which has all rows up to 1000, or is pruned before the query |
| `SseDelivery.WrittenAtMostTwice` | modules/runtime/sse.go:251-289 | no event is written more than twice, twice only if replayed and also published live; order is replay first |
| `SseConnection.Dispatch` | modules/runtime/sse.go:354-409 | the event is in the log, found by every later replay below it, before it is offered to the channel |
| `SseConnection.ServeEvents` | modules/runtime/sse.go:251-317 | one connection writes the replayed rows in ascending order, or none if the query fails, then what its channel and timers yield, while newer connections may take its entry and older ones delete it; it leaves the registry without an entry of its own and others' entries alone |
| `SseConnection.ServeLive` | modules/runtime/sse.go:270-317 | the loop writes what the specification of the live part says for any choices, knows whether its entry is still its own, and leaves the rest in its channel |
| `SseConnection.LiveEventsAreThePublished` | modules/runtime/sse.go:281-289 | by the choices alone: while the connection keeps its entry, the events it writes are exactly the published ones in order if and only if no publish finds sixteen waiting and the receives catch up |
| `SseConnection.NothingIsDropped` | modules/runtime/sse.go:133-140 | from any channel: unless a publish finds it full, what is written followed by what is left is what was waiting followed by what was published |
| `SseConnection.WithoutEntryNothingEnters` | modules/runtime/sse.go:125-132 | once the entry is gone nothing more enters the channel; what waits is still written |
| `SseConnection.ServedInTwo` | modules/runtime/sse.go:279-317 | a connection's second stretch goes on with what the first left; its keepalives are its ticks; it owns its entry until a newer connection or a delete |
| `SseConnection.LiveEnds` | modules/runtime/sse.go:295-315 | the timer and a client that leaves end it with what is out, and only the timer says so |
| `SseConnection.ResumeAfterCut` | modules/runtime/sse.go:255-268 | a connection cut anywhere in its replay has delivered the first rows of it, and a replay that resumes from the client's cursor finds exactly the rest |
| `SseRuns.ConnectionIsARun` | modules/runtime/sse.go:251-317 | what the connection writes, from any state of a run of the delivery machine, with a failed query, newer connections and stale deletes included, are exactly the events of the ids that the machine's connection has written in a continuation of that run, in that order; what is left in its channel is what the machine has there, and if nothing is, the whole replay result and channel intake are written |
| `SseRuns.ClientGetsTheRun` | modules/runtime/sse.go:251-317 | end to end: what a standard client decodes from those bytes is a prefix of the replay result followed by what entered the channel, no id more than twice |
| `SseRuns.ClientGetsEverything` | modules/runtime/sse.go:251-317 | if the connection keeps its entry, no publish finds the channel full and the receives catch up, a standard client decodes exactly the replayed rows and then the published events |
| `SseConnection.Replay` | modules/runtime/sse.go:255-268 | the replay loop writes exactly the frames of the rows, in order |
| `SseConnection.WireDelivers` | modules/runtime/sse.go:281-317 | a standard client gets exactly the written events in order, and at the end the close message if the connection closed itself |
| `SseFrames.RoundTrip` | modules/runtime/sse.go:336-342 | printing any printable events with keepalives anywhere and parsing them by the WHATWG rules gives back the same events |
| `SseFrames.FrameText` | modules/runtime/sse.go:336-342 | the bytes of an event |
| `SseFrames.FixedText` | modules/runtime/sse.go:290-305 | the bytes of a keepalive and of the close frame |
| `SseFrames.CloseKeepsCursor` | modules/runtime/sse.go:303-304 | the final close frame is heard and leaves the last event id as it was |
| `SseFrames.CutAnywhere` | modules/runtime/sse.go:281-312 | a connection cut at any character delivers exactly a prefix of the events and the cursor of that prefix |
| `SseFrames.SurvivesIffPrintable` | modules/runtime/sse.go:336-342 | one frame is read back as itself if and only if its type is not empty and neither type nor payload has a line break; the payload may be empty |
| `Runtimes.RuntimeTable.Upsert` | modules/runtime/db.go:23-55 | one row per key, whose key columns never change; the row becomes what was registered, but a missing interval keeps the old one; a new row gets a new id |
| `Runtimes.RuntimeTable.FirstRuntimeIdForDaemon` | modules/runtime/db.go:145-154 | the lowest id among the daemon's online runtimes, 0 exactly if there is none |
| `Runtimes.RuntimeTable.Sweep` | modules/runtime/api.go:887-907 | afterwards no row is stale or expired; stale rows went offline, expired ones are gone, all others are untouched |
| `Runtimes.SweptRowIs` | modules/runtime/db.go:180-203 | a row goes offline exactly after three silent intervals and is deleted exactly if it is offline by then and was last seen before the cutoff |
| `Bots.BotTable.CreateBot` | modules/runtime/bot.go:283-349 | the answer for every case; OK is a draft with the whole key of a runtime the caller owns |
| `Bots.BotTable.PatchBotMint` | modules/runtime/bot.go:388-452 | the answer for every case; minted exactly from the owner's draft with a uid that is not blank, with both events |
| `Bots.BotTable.ClaimPendingBotProvision` | modules/runtime/bot.go:203-242 | hands out the oldest waiting bot of exactly that space, daemon, kind and owner with the new token, none only if none waits |
| `Bots.BotTable.FetchBotProvision` | modules/runtime/bot_provision_fetch.go:95-141 | the answer for every case: a payload exactly if runtime and bot are the caller's, the bot is on that runtime and is minted or dispatched; it shows the row as dispatched; refusals change nothing |
| `Bots.BotTable.RespondBotProvisionByStatus` | modules/runtime/bot_provision_fetch.go:156-209 | for any row read earlier, however stale: claims at most once, at most one level of recursion, and what is answered in each race |
| `Bots.BotTable.AckBot` | modules/runtime/bot.go:618-700 | the answer for every case: OK exactly if the caller's bot already has the requested status, which changes nothing, or the token is that of its outstanding claim; any other answer changes nothing |
| `Bots.BotTable.AckAsRead` | modules/runtime/bot.go:656-699 | for any row read earlier: lands exactly if the update's guard holds on the table as it is, with a removal event only after an applied failure |
| `Bots.BotTable.ArchiveBot` | modules/runtime/bot.go:569-599 | archives exactly the caller's bot and tells the daemon |
| `BotDeltas.DeltaLogMatchesTheTable` | modules/runtime/bot.go:421-447 | after any sequence of handlers, refused mints that repeat a uid included, folding a runtime's deltas gives exactly the uids of its minted, dispatched and active bots, as long as each accepted mint brings a fresh uid |
| `BotDeltas.CallAgrees` | modules/runtime/bot.go:586-698 | the reason: each handler keeps log and table in agreement |
| `BotDeltas.MintsAreAnnouncedOnce` | modules/runtime/bot.go:431-447 | after any sequence of handlers each bot that was minted has been announced to its runtime by exactly one provision event, and nothing else has |
| `BotDeltas.SharedUidIsLost` | modules/runtime/bot.go:586-597 | distinct uids are needed: with a shared one, an archive takes it from the daemon while the other bot lives |
| `BotProtocol.AcksClaimsMints` | modules/runtime/bot.go:203-242 | under any race of claims, mints, acks and archives: applied acks ≤ claims ≤ mint writes, per bot |
| `BotProtocol.TokensAgree` | modules/runtime/bot.go:229-241 | a dispatched bot always holds the token of its latest claim, tokens are never reused, and each applied ack carried a claim's token that no other carried |
| `BotProtocol.PayloadsAgree` | modules/runtime/bot_provision_fetch.go:156-209 | payloads from heartbeat, fetch, re-fetch and race fallback carry the same token exactly if they belong to the same claim, and then are equal in every field unless exactly one is the claiming fetch's, overtaken by a mint: then the uids differ |
| `BotProtocol.AppliedAckMatches` | modules/runtime/bot.go:137-146 | an ack is applied only with the token of the outstanding claim, not used before |
| `BotProtocol.FetchedPayloadIsCurrent` | modules/runtime/bot_provision_fetch.go:157-197 | a claiming fetch hands out the row as it now is if and only if no mint replaced the uid since it was read |
| `BotProtocol.FetchedPayloadOverRun` | modules/runtime/bot_provision_fetch.go:157-197 | over whole runs: a fetch that reads a minted row, waits while anything else happens and then claims hands out the bot as it is by then if and only if the last mint write since the read, if any, wrote the same uid |
| `BotProtocol.FetchCanHandOutOldUid` | modules/runtime/bot.go:426-429 | otherwise it can hand out a uid that the table no longer has |
| `BotProtocol.OldUidIsHandedOut` | modules/runtime/bot.go:426-429 | a run from the start that does so |
| `BotProtocol.OkMeansStatus` | modules/runtime/bot.go:634-699 | on every run an ack is answered OK only if the bot had the requested status right after one of the call's own steps |
| `BotProtocol.ConflictChangedNothing` | modules/runtime/bot.go:659-682 | a call answered with a conflict has changed no bot in any of its steps |
| `BotProtocol.ReplaysAreAnswered` | modules/runtime/bot.go:643-655 | after an applied ack, every replay that begins before the next archive or mint is answered OK and changes nothing |
| `BotProtocol.LateDuplicatesAreAnswered` | modules/runtime/bot.go:671-682 | duplicates that had already read the row before the ack was applied are answered OK as well: their update misses and their re-read finds the status |
| `BotProtocol.OnlyMintsLeaveTheArchive` | modules/runtime/bot.go:137-146 | no ack moves or touches an archived bot; the only single step that can is a mint's write |
| `BotProtocol.ArchiveIsFinalIff` | modules/runtime/bot.go:407-429 | an archived bot stays archived on every continuation if and only if no mint request that has read its draft is still to write |
| `BotProtocol.ArchivedCanComeBack` | modules/runtime/bot.go:407-429 | and that happens whenever a mint has read the draft before the archive |
| `BotProtocol.ArchiveIsUndone` | modules/runtime/bot.go:407-429 | a run from the start in which an archive is undone |
| `BotProtocol.MintAlone` | modules/runtime/bot.go:407-429 | with nothing between its statements a mint of this machine is the handler's, refusals included |
| `BotProtocol.HeartbeatAlone` | modules/runtime/bot.go:203-242 | so is a heartbeat's claim, with its payload |
| `BotProtocol.FetchAlone` | modules/runtime/bot_provision_fetch.go:156-209 | so is a fetch, with its payload or refusal |
| `BotProtocol.AckAlone` | modules/runtime/bot.go:634-699 | so is an ack, with its answer |
| `BotProtocol.ArchiveAlone` | modules/runtime/bot.go:586-597 | so is an archive |
| `Routing.RoutesAgree` | modules/runtime/bot_provision_fetch.go:113-138 | on every run, while a bot's runtime is in the table, heartbeat and fetch reach the bot from that runtime and from no other |
| `Routing.HeartbeatClaimsWhatItReaches` | modules/runtime/bot.go:203-242 | on every run a heartbeat's claim changes exactly the first minted bot with the runtime's whole key, and while that bot's runtime row is there it is this runtime |
| `Routing.FetchClaimsWhatItReaches` | modules/runtime/bot_provision_fetch.go:157-180 | a fetch's claim changes exactly the bot it names, if that is minted and on the named runtime |
| `Routing.RoutesAgreeIff` | modules/runtime/bot.go:220-225 | the two routes agree if and only if the runtime is there or nothing has the bot's key |
| `Routing.RegisteringAgainSplits` | modules/runtime/db.go:23-55 | registering a deleted runtime again makes its bots reachable by heartbeat and by no fetch |
| `Routing.SplitIsReached` | modules/runtime/db.go:23-55 | a run from the start that gets there |
| `Routing.RowsStayPut` | modules/runtime/db.go:23-55 | no step changes the key of a row, and a new row never takes a key in use |
| `Routing.RowsAfter` | modules/runtime/db.go:23-55 | what registering, a beat, turning off and removing leave of the rows, column by column |
| `Owners.OthersDoNotShow` | modules/runtime/api.go:461-471 | after any run an owner's runtimes, tasks and bots are exactly what they would be had nobody else called; only its refused deregistrations that list a runtime of somebody else count as not made |
| `Owners.OthersRowsAreUntouched` | modules/runtime/bot.go:639-671 | no call adds, changes or removes a row of another owner |
| `Owners.AcceptanceIsOwn` | modules/runtime/upgrade.go:397-414 | whether a request is accepted depends on the owner's own tasks only |
| `Owners.AcceptedAsIfAlone` | modules/runtime/upgrade.go:388-414 | after any run it is accepted exactly if it would be without the other owners |
| `Owners.ForeignIdsShow` | modules/runtime/api.go:542-558 | the one exception to acting as if alone: a deregistration that lists a runtime of somebody else |
| `Owners.RegisteredRows` | modules/runtime/api.go:213-262 | after a registration each reported runtime has the row of its key with what its last report says, and no other row has changed |
| `Owners.RegistrationCloses` | modules/runtime/api.go:266-315 | a registration completes exactly the owner's tasks of this daemon in progress whose target it reports in a plugin, a runtime or the daemon; every other task is as before |
| `Owners.BotCallsAreHandlers` | modules/runtime/bot.go:388-699 | the calls on bots here and the bot handlers do the same |
| `Owners.ReportIsTheStatement` | modules/runtime/upgrade.go:540-596 | a report changes the owner's own task as its status allows, and nothing else |
| `Handlers.Register` | modules/runtime/api.go:129-315 | the loops over runtimes, plugins and components do what the owner frame calls a registration, for exactly the active providers, and of the secrets exactly those of the cc-octo tasks that its plugin reports complete are gone |
| `Handlers.AcceptedAreActive` | modules/runtime/api.go:213-230 | every report of an active provider is registered, as online unless it says otherwise, and no other |
| `Handlers.DroppedAreEnded` | modules/runtime/api.go:271-298 | those secrets belong to cc-octo tasks that the registration completes, and to all of them unless a provider is called cc-octo too |
| `Handlers.CloseOutPlugin` | modules/runtime/api.go:271-281 | after a plugin report the secrets gone are exactly those of the cc-octo tasks it completed |
| `Handlers.Heartbeat` | modules/runtime/api.go:451-515 | one heartbeat puts its runtime online, claims a newest pending upgrade of the owner's daemon and the oldest waiting bot of the runtime's key, and changes nothing else; none is handed out only if none waits; refusals change nothing |
| `Handlers.Deregister` | modules/runtime/api.go:532-566 | all listed runtimes go offline or, with a single one not the caller's, none |
| `Handlers.DeleteRuntime` | modules/runtime/api.go:779-812 | only the owner's call removes the row |
| `Handlers.InsertUpgradeTask` | modules/runtime/upgrade.go:366-447 | conflict exactly if the key has a task in progress; a failed commit leaves neither task nor secret; success adds exactly the requested row, pending, and makes the secret visible; secrets of other tasks stay as they are |

## Left out

- HTTP binding, JSON, error envelopes, logging, routing and wiring: no state of their own. Handlers take parsed requests; database errors appear only where a property needs them (failed commit, failed replay query).
- Authentication against the upstream server, the HTTP proxy, URL and DNS checks: they rest on libraries. Whether the gateway URL is allowed is a parameter of `UpgradeRequests.UpgradeInit`.
- MySQL beyond row locks, statement atomicity, auto-increment and affected rows: collations, other isolation anomalies and connection errors. A sweep counts for `UpgradeTiming` only if no row of its component is uncommitted at that moment, since its UPDATE would wait for that row's lock.
- UpgradeTiming.SlotIsReleased: the gap D is a hypothesis about the sweeper's schedule. The code skips a sweep when an earlier statement of the pass fails, so D is not simply the ticker's 10 seconds.
- Several connections of one runtime at once in `SseDelivery`: the code's own comments give up the order of ids there, and the daemon that deduplicates is in another repository. `SseHub` does cover their race for the registry.
- Wall-clock bounds on a connection: the timer starts after the replay and the choice of a select is random. Failed writes end a connection like the cut in `SseFrames.CutAnywhere`.
- SseConnection.ServeEvents: publishes, newer connections and stale deletes that come while the replay is being written are taken to come right after it, since until then they only change the channel and its entry; between registration and query they are in `SseDelivery`. The ownership check before the stream opens is not repeated here; it is the check of the other daemon calls.
- BotProtocol: the heartbeat's claim may take any minted bot, not only the oldest of its key; every real run is among these. The owner checks, which read columns that never change, are in `Bots`.
- Handlers.Register: device and component telemetry is left out, and a failed upsert, which ends the call early.
- Runtimes.RuntimeTable.Sweep: the first passes after a start, which only delete.
- Runtimes.RuntimeTable.Upsert: the id of a refreshed row is the row's own, as the code's fallback query makes sure; device link, metadata and descriptive columns are left out.
- VersionGates.ComputePluginHint: takes the plugin name and its latest version, which the caller looks up by provider.
- List views, pagination, route enrichment, workspace names, device telemetry, the admin endpoint for latest versions: glue without a hard property.
- The lint tool and the SQL migrations, except for the four-column key of the runtime table.
