# A verified model of the applecontainer compute driver

The driver runs each OpenShell sandbox in a VM of its own and keeps three things in step: an
in-memory registry, a store of launch records on disk, and the VM runtime. This project models the
driver's logic in Dafny and proves what its design promises.

**The sandbox lifecycle.** `Lifecycle` is a transition system over registry entries, stored records,
VMs, provisioning goroutines, stop/start and delete calls, the poller, the outside world, crashes and
restarts. One step is one critical section of the server's lock, one runtime call or one store call,
so every interleaving of the real threads is a run. A runtime call that reports an error may or may
not have taken effect; no call succeeds under an expired context; a crash keeps the store and the VMs
only. `LifecycleInvariant` keeps the invariant over every step. On top of it:
`DeleteFinality` and `DeleteMark` (a delete that succeeds is final, and exactly when),
`LifecycleTheorems` (no unrecorded VM, identities, the orphan sweep, busy as a lock), `CoarseRuns`,
`StopIntent` and `StopIntentFine` (the gateway's stop intent), `StoreMirror` (the store mirrors the
registry), `StartReport` (what a start and a boot have reported), `Cancellation` (what a delete's
cancellation stops, and exactly when), `Reports` (no report is made up, a failed sandbox is left alone),
`Requests` (the record answers its request, and is on disk when its VM is booted). `Witness`,
`DeleteWitness`, `StopWitness`, `StartWitness` and `SweepWitness` build the histories in which a promise
is broken. `Registry` is poll and bootstrap in the source's own shape, a class whose methods update entry
objects in place, proved equal to the functions of `Entries` that the transition system uses. `Handlers`
is create, provision, stop, start and delete in that shape: its critical sections, runtime calls and
store calls are methods proved to be steps of the transition system from any state they may find, and
the handlers put together from them are proved to be runs of those steps when nothing else happens in
between (a cancellation of provisioning may come at any point). What other threads do in between is in
the transition system only. `Hub`, `Watch` and `WatchOrder` are the event fan-out, the
watch streams and the order of events, `StoreFiles` the file-system calls under the store.

**The supervisor extractor.** `Extractor` is a double-checked, mutex-guarded file cache with a
transient container and an atomic rename, under any number of callers and a crash anywhere;
`ExtractorCleanup` says what it leaves behind, `SeedNames` holds its names and cache keys,
`ExtractorWitness` the histories of a tag that moves and of a copy that fails part way.

**The gateway.env editor.** `ManagedBlock` (over `Text`) removes and replaces the managed block;
`Shell` quotes the values and reads them back as the POSIX shell does (POSIX.1-2017, Shell Command
Language, sections 2.2.1, 2.2.2, 2.3 and 2.9.1).

**The boot-spec compiler.** `SandboxEnv`, `Mounts` and `MountPolicy` (over `Paths`), `Quantity` and `RunArgs` (over
`Strings`) turn a request into an environment, a mount plan, a size and a command line; `BootSpec`
puts them together, `Admission` is what a create request has to pass first.

Three shapes recur. Where the source updates state in place there is a class or a loop, and its
`ensures` ties the new state to a function of the old one. Where names or markers are fixed texts
(the block markers, the driver's variables, the label names, the reserved paths, the memory units)
the proofs are about any texts that satisfy a small predicate, and a lemma shows that the source's
own texts do. Where the code does not keep a promise, there is a lemma with a concrete case and one
that says exactly when the promise holds:

* A stop that is past its runtime call saves its record after a delete has removed it
  (`DeleteWitness.DeleteCanBeUndone`; exactly when: `DeleteMark.UndoableIff`, decided when the delete
  marks the entry, and `DeleteFinality.GoneForeverIff`).
* A delete's cancellation does not stop a boot call that is already under way
  (exactly when a VM can still appear: `Cancellation.NeverBootsIff`).
* A list that the poller took before a stop can be applied after it, and a save it picked before can
  land after it (`StopWitness.OldListIsReached`, `StopWitness.OldSaveIsReached`; exactly when:
  `StopIntentFine.StopIntentIff`).
* A record that cannot be read at a restart costs its sandbox the VM
  (`SweepWitness.UnreadRecordCostsTheVm`; exactly when: `LifecycleTheorems.OrphanIffUnread`).
* A list that the poller took before a boot or a start can be applied after it, and report a running
  VM as lost or exited (`StartWitness.BootIsOverturned`, `StartWitness.StartIsOverturned`; exactly
  when: `StartReport.BootReportIff`, `StartReport.StartReportIff`).
* Taking a snapshot and publishing it are separate steps, so the last event a watcher gets can be
  stale in two ways: another event overtook it (`Watch.LastEventMayBeStale`; exactly when:
  `WatchOrder.LastEventIsLatestIff`), or its snapshot was taken after a delete had unregistered the
  sandbox (`WatchOrder.RemovedSandboxIsShown`). An event that was not overtaken shows the sandbox as
  it is if and only if it is the deletion or was taken while the sandbox was registered
  (`WatchOrder.InOrderShowsNowIff`).
* The extraction container's name is said never to collide with a sandbox's, but does
  (`SeedNames.ClashingIdIsValid`; exactly when: `SeedNames.ExtractionNameClash`). Two image references
  can share a cache key (`SeedNames.CacheKeysCanClash`; exactly when: `SeedNames.CacheKeysClashIff`;
  what follows: `Extractor.OwnBinaryIff`).
* The digest is read before the image is run by its tag, so a tag that moves in between caches another
  image's binary under the digest's key for good (`ExtractorWitness.MovedTagIsCached`,
  `Extractor.CacheIsForever`; exactly when: `Extractor.OwnBinaryIff`).
* An accepted volume path with a `:` or template label name with an `=` is misread on the command
  line (`BootSpec.AcceptedButMisread`; exactly when: `BootSpec.BootCommandMeansSpec`).
* A mount over a parent of a reserved path is accepted (`Mounts.ParentIsAccepted`; exactly what is:
  `Mounts.AcceptedTargets`), and a mount root of `/` admits nothing below it (`Paths.PathWithinIff`).
* A copy that fails part way leaves its temporary file, because the clean-up is armed only after the
  copy (`ExtractorWitness.PartialCopyIsLeft`; nothing else leaves one:
  `ExtractorCleanup.LeftBehindOnlyByErrors`).
* Create is to refuse what a boot would refuse, but does not look at the user environment; exactly what
  is left to refuse is `Admission.OnlyTwoRefusalsLeft`.
* The memory suffix table is said to need its longest entries first; no text ends in two of them
  (`Quantity.UnitsAreUnambiguous`).

## Model

| member | source | states |
|---|---|---|
| DeleteMark.DeleteIsFinal | internal/grpcsvc/create.go:396-436 | In every history, a delete that marks an entry which is still provisioning, or which no stop, start or poll can come to save, and then succeeds, leaves no VM, record, registry entry or goroutine, and no later step of any thread, crash or restart brings one back. |
| DeleteMark.UndoableIff | internal/grpcsvc/create.go:396-432 | A delete of a registered sandbox can go on to succeed and yet be undone if and only if, when it marks the entry, a stop or start of the sandbox can still get to its save or a poll's save of it is outstanding. |
| DeleteMark.SafeIsFinal | internal/grpcsvc/create.go:396-432 | Once an entry is marked and nobody can come to save it, the call's success is final, through every step of every thread. |
| DeleteMark.HeldUndoes | internal/grpcsvc/lifecycle.go:41-59 | From any stop, start or poll that can still save, there is a run in which the delete succeeds and the record comes back. |
| DeleteFinality.GoneForeverIff | internal/grpcsvc/lifecycle.go:128-137 | A removed sandbox stays removed in every continuation if and only if no stop or start is between its runtime call and its save and the poller has no save of it outstanding. |
| DeleteMark.ProvisioningIsNotHeld | internal/grpcsvc/lifecycle.go:107-116 | While an entry is provisioning no stop or start of it can get to its save and no poll save of it is outstanding. |
| DeleteFinality.GoneStep | internal/grpcsvc/create.go:303-335 | No single step of any thread revives a removed sandbox that no writer holds. |
| DeleteWitness.DeleteCanBeUndone | internal/grpcsvc/lifecycle.go:128-137 | A concrete history in which a delete has returned success, nothing is left, and a stop's own save still brings the record back. |
| Cancellation.CancelStops | internal/grpcsvc/create.go:405-407 | From the cancel step of a delete on, in every history, the sandbox's goroutine never clears a leftover VM, never passes its cancellation check and never boots. |
| Cancellation.NeverBootsIff | internal/grpcsvc/create.go:303-335 | That cancellation keeps the goroutine from ever bringing the sandbox's VM into being if and only if the goroutine is not in its boot call already; that call can still take effect and report an error. |
| LifecycleTheorems.NoUnrecordedVm | internal/grpcsvc/create.go:91-103 | At every point of every history, crash points included, a VM of an accepted sandbox has a record on disk, and a record goes only by a delete. |
| LifecycleTheorems.IdentityIsForever | internal/grpcsvc/create.go:69-89 | The identity and the accepted specification never change in memory or on disk, and no record ever holds the token. |
| Requests.RequestIsAnswered | internal/grpcsvc/create.go:64-103 | In every history, once a create has saved its record: id, name, workspace, VM name, image (the default exactly when none was asked for) and the kept request are the request's, the namespace the driver's, in memory and on disk, and the record is there until a delete removes it. |
| Requests.BootsWhatIsPinned | internal/grpcsvc/create.go:178-191 | When the VM is booted, the record in memory is on disk and carries the digest that the goroutine pinned, whatever other threads did in between. |
| LifecycleTheorems.OrphanIffUnread | internal/grpcsvc/reconcile.go:29-94 | When a restart has loaded its records, the VM of an accepted sandbox that no delete removed is on the orphan list if and only if its record could not be read. |
| LifecycleTheorems.SweepSparesAccepted | internal/grpcsvc/reconcile.go:68-94 | The orphan sweep never deletes a VM with a registry entry; of accepted sandboxes only those that a delete removed or whose record this start could not read. |
| SweepWitness.UnreadRecordCostsTheVm | internal/grpcsvc/reconcile.go:29-31 | A history in which the driver is about to sweep the running VM of an accepted sandbox that nobody asked to delete. |
| LifecycleTheorems.OpensWithEverythingKnown | internal/grpcsvc/reconcile.go:24-94 | When the driver starts serving, the registry is exactly the stored records it could read, and every managed VM without an entry is one whose delete the runtime refused. |
| LifecycleTheorems.BusyIsALock | internal/grpcsvc/lifecycle.go:100-124 | Busy is set exactly while one stop or start lies between its admission and its release, and never two. |
| LifecycleTheorems.OnlyTheHolderMovesThePhase | internal/grpcsvc/reconcile.go:157-232 | While an entry is held and not being deleted, no other thread changes its status or reason, a poll already past its critical section included. |
| Reports.ReportsWereTrue | internal/grpcsvc/reconcile.go:157-193 | In every history a sandbox is reported ready only if its VM has run, exited only if its VM has been there without running, stopped only if besides a stop of it was admitted, and a console tail is attached to nothing but an exit. |
| Reports.FailedIsLeftAlone | internal/grpcsvc/lifecycle.go:107-116 | A sandbox reported as failed to provision has no stop or start admitted or in flight; its report changes only by its delete, a restart, or a poll whose list shows a VM of it. |
| Reports.TailIffStillExited | internal/grpcsvc/reconcile.go:205-226 | The poller attaches a console tail if and only if the sandbox is still reported as exited and not being deleted by then. |
| LifecycleInvariant.StepKeepsInv | internal/grpcsvc/create.go:109-138 | Every step of every thread keeps the invariant of registry, store and VMs, and what each other thread relies on. |
| LifecycleInvariant.HistoriesAreSafe | internal/grpcsvc/reconcile.go:24-94 | The invariant holds in every state of every history from the first start. |
| CoarseRuns.QuickPollIsARun | internal/grpcsvc/reconcile.go:138-203 | A poll taken as one step, with any of its saves failing, is a run of the fine poll steps with nothing in between. |
| CoarseRuns.CoarseHistories | internal/grpcsvc/lifecycle.go:41-59 | With polls as one step, a stop in flight has its mark in memory and on disk before it reports. |
| StopIntent.StopIntentSurvives | internal/grpcsvc/lifecycle.go:41-59 | From a successful stop on, while the VM is at rest and not being deleted, every observation says ContainerStopped and the mark is on disk, through polls, failed saves and starts, crashes and restarts; the sandbox is there to observe unless its record could not be read at that start. |
| StopIntent.StopEstablishes | internal/grpcsvc/lifecycle.go:128-137 | The return of a successful stop establishes the intent in memory, on disk and in what is reported. |
| StopIntentFine.StopIntentIff | internal/grpcsvc/reconcile.go:138-203 | At full granularity the reported stop survives every continuation if and only if the mark is on disk and the poller holds no list or save of the sandbox from before the stop. |
| StopIntentFine.HistoriesAreMarked | internal/grpcsvc/lifecycle.go:100-137 | At full granularity a stop or start in flight always finds its own mark and phase in memory when it gets to the next step. |
| StopIntentFine.RestartForgets | internal/grpcsvc/reconcile.go:42-66 | A stop whose mark is not on disk is forgotten by a restart, which reports ContainerExited. |
| StopWitness.OldListIsReached | internal/grpcsvc/reconcile.go:142-157 | A history in which a stop returns success while the poller holds a list from when the VM was running, and a continuation reports otherwise. |
| StopWitness.OldSaveIsReached | internal/grpcsvc/reconcile.go:195-203 | A history in which a stop returns success while the poller holds a record picked before it, and a continuation forgets the stop. |
| StopIntentFine.OldListOverwrites | internal/grpcsvc/reconcile.go:142-193 | A list from before the stop, applied after it, overwrites what the stop reported. |
| StartReport.StartReportIff | internal/grpcsvc/lifecycle.go:67-96 | From the moment a start returns success, every observation of the running VM says it is ready in every continuation if and only if the poller holds no list from before the VM was running. |
| StartReport.BootReportIff | internal/grpcsvc/create.go:122-128 | The same of a boot, from the moment it reports the sandbox ready. |
| StartWitness.BootIsOverturned | internal/grpcsvc/reconcile.go:142-193 | A history in which a sandbox has just booted and some continuation reports it lost while its VM runs on. |
| StartWitness.StartIsOverturned | internal/grpcsvc/reconcile.go:142-193 | A history in which a start has returned success and some continuation reports an exit while the VM runs on. |
| StoreMirror.StoreMirrorsRegistry | internal/grpcsvc/lifecycle.go:128-137 | If every save succeeds, an entry that is not being deleted equals its stored record except between an in-memory write and its save. |
| StoreMirror.MirrorStep | internal/grpcsvc/create.go:182-190 | Every step keeps the mirror, for held and for free entries. |
| Records.ContainerNameInjective | internal/grpcsvc/create.go:42 | Different sandboxes have different VM names. |
| Records.Accept | internal/grpcsvc/create.go:64-89 | The record's identity is the request's and the driver's own, field by field; the image is the requested one, the default exactly when none was; the kept request is the one sent but for its token; no digest, not stopped. |
| Registry.EntryObject.Observe | internal/grpcsvc/reconcile.go:159-193 | The poller's updates of one entry object are exactly the shared classification applied to the entry. |
| Registry.Server.Bootstrap | internal/grpcsvc/reconcile.go:24-94 | Rebuilds the registry as a function of records and list, and returns exactly the managed containers of no known sandbox, in list order. |
| Registry.Server.Adopt | internal/grpcsvc/reconcile.go:42-66 | One entry per record, classified from its VM and stop mark, with the console tail where it could be fetched. |
| Registry.Server.BeginLifecycle | internal/grpcsvc/lifecycle.go:100-124 | Refuses an unknown sandbox, one being deleted, one still provisioning, one with an operation in progress, one that failed to provision, in this order and with nothing changed; otherwise marks the entry busy. |
| Registry.Server.HasPollable | internal/grpcsvc/reconcile.go:120-131 | True exactly when some entry can be polled. |
| Registry.Server.PollOnce | internal/grpcsvc/reconcile.go:138-193 | One pass updates every entry by the classification and collects exactly the entries to save, to report and to give a tail; skipping the list when nothing is pollable loses nothing. |
| Registry.PollAfterRestartIsQuiet | internal/grpcsvc/reconcile.go:42-66 | The first poll after a restart on an unchanged runtime changes no status or reason, reports nothing, and only drops the stop mark of running VMs. |
| Registry.PollSettles | internal/grpcsvc/reconcile.go:157-193 | After one poll every pollable entry matches the classification and every other entry is untouched. |
| Registry.SecondPollIsQuiet | internal/grpcsvc/reconcile.go:157-193 | A second poll of the same list changes, saves and reports nothing. |
| Registry.PollTells | internal/grpcsvc/reconcile.go:157-193 | A pollable entry becomes ready with a running VM, stopped or exited by its mark with one at rest, failed with none; it is saved exactly if its mark was dropped, reported exactly if status or reason changed, and gets a tail exactly if it has just exited. |
| Registry.BootTells | internal/grpcsvc/reconcile.go:42-66 | What a restart makes of a record, from what the list shows of its VM; the tail comes with an exit only. |
| Registry.OrphansTell | internal/grpcsvc/reconcile.go:78-94 | The orphans are exactly the managed containers whose label is empty or names no known sandbox. |
| Registry.ByNameTells | internal/grpcsvc/reconcile.go:37-40 | A name shows the last row that has it. |
| Handlers.Driver.Create | internal/grpcsvc/create.go:64-106 | Builds the record that answers the request; an id in use is refused with nothing changed, otherwise the record is saved before the entry is registered as starting, exactly as the create step of the transition system, and nothing of any other sandbox differs. |
| Handlers.Driver.Pin | internal/grpcsvc/create.go:178-191 | The observed digest, and nothing else, is written in memory and then saved; without one nothing is written. |
| Handlers.Driver.Prepare | internal/grpcsvc/create.go:140-230 | Finding and pinning the image and preparing the boot is a run of provisioning steps that ends before the stale VM is cleared, or in failure. |
| Handlers.Driver.BootVm | internal/grpcsvc/create.go:303-335 | Clearing a leftover, the cancellation check and the boot, with a cancellation before any of them, are a run of provisioning steps; success leaves the sandbox's own managed VM running. |
| Handlers.Driver.Finish | internal/grpcsvc/create.go:109-138 | The outcome becomes Ready or Failed, or is not reported if cancelled, and the channel is closed, as the last provisioning steps do. |
| Handlers.Driver.Provision | internal/grpcsvc/create.go:122-138 | Provisioning, cancelled at any point or not, is a run from its first step to the close of its channel; it ends Ready with the VM booted and the digest on disk, Failed, or, cancelled before the boot was through, with the condition it had. |
| Handlers.Driver.CallRuntime | internal/grpcsvc/lifecycle.go:41-48 | The runtime call of a stop or start, failing or not, is one step from any state. |
| Handlers.Driver.WriteMarkOn | internal/grpcsvc/lifecycle.go:128-132 | The critical section that marks the intent is one step from any state, and yields the copy of the record to save. |
| Handlers.Driver.SaveRecord | internal/grpcsvc/lifecycle.go:133-135 | A save stores the copy it was given, whatever the entry has become, and touches nothing else. |
| Handlers.Driver.RemoveVmOf | internal/grpcsvc/create.go:413-421 | The runtime's delete is one step from any state; an absent VM is no error. |
| Handlers.Driver.SetStopped | internal/grpcsvc/lifecycle.go:126-137 | Marks the entry, then saves that record: the two steps of the transition system. |
| Handlers.Driver.Invoke | internal/grpcsvc/lifecycle.go:41-51 | A missing VM ends the operation; an error is overridden only by a VM already in the wanted state. |
| Handlers.Driver.Operate | internal/grpcsvc/lifecycle.go:41-59 | Stop and start past admission are a run of the thread's steps to its release; success means a VM, the mark on disk and the matching condition. |
| Handlers.Driver.StopOrStart | internal/grpcsvc/lifecycle.go:30-98 | Refused for the first reason that applies with nothing changed, or a run from begin to release; success means the VM in the wanted state and the mark, the record and the condition to match; busy is clear again either way. |
| Handlers.Driver.Delete | internal/grpcsvc/create.go:396-436 | A run of the delete steps; the provisioning context is cancelled; success leaves no entry, record or VM, an error leaves the entry marked deleting; with provisioning still on, the wait runs into its deadline and the call fails. |
| Handlers.Driver.CancelTaskOf | internal/grpcsvc/create.go:405-407 | Cancels the context of a provisioned entry, and is the cancel step of the transition system. |
| Hub.Channel.TrySend | internal/grpcsvc/hub.go:51-55 | A send succeeds exactly below 128 queued events, appends then, and drops otherwise. |
| Hub.Hub.Subscribe | internal/grpcsvc/hub.go:28-36 | Hands out an unused id with an open, empty channel and leaves the others alone. |
| Hub.Hub.Unsubscribe | internal/grpcsvc/hub.go:38-45 | Removes and closes that channel only; a second call does nothing. |
| Hub.Hub.Publish | internal/grpcsvc/hub.go:47-57 | Offers the event to every open channel once, whatever the visiting order, and never sends on a closed one. |
| Watch.NoLostTransition | internal/grpcsvc/service.go:203-241 | For every watcher and published change, the opening snapshot already contains the change, or its event, which shows a version at or after it, is in the watcher's stream or was dropped; the stream is in publish order. |
| Watch.DropsOnlyWhenFull | internal/grpcsvc/hub.go:47-57 | An event is dropped for a watcher only by a publish that found 128 queued. |
| WatchOrder.LastEventIsLatestIff | internal/grpcsvc/service.go:276-294 | In every history, the last event published for a sandbox was taken at or after its last change if and only if, when it was published, no event published before for that sandbox carried a change its snapshot does not show. |
| WatchOrder.InOrderShowsNowIff | internal/grpcsvc/service.go:260-294 | A last event published in order shows the sandbox as it is now if and only if it is the deletion or its snapshot was taken while the sandbox was still registered. |
| WatchOrder.OvertakenIsOld | internal/grpcsvc/service.go:276-294 | A last event published out of order predates a change of its sandbox, and shows it as it is now only if what it shows was restored. |
| WatchOrder.RemovedSandboxIsShown | internal/grpcsvc/create.go:429-432 | A history in which a watcher that missed nothing ends on an in-order event that shows a sandbox already removed. |
| WatchOrder.HistoriesAccount | internal/grpcsvc/service.go:276-294 | In every history each registry change is still to be published by somebody or has been, for the sandbox it moved, and moved no other. |
| WatchOrder.WatcherEndsOnLast | internal/grpcsvc/hub.go:47-57 | A watcher that dropped nothing ends, for each sandbox, on the last event published for it since it subscribed. |
| Watch.LastEventMayBeStale | internal/grpcsvc/service.go:276-286 | A concrete history in which a watcher that missed nothing ends on an event that shows the older state. |
| StoreFiles.NeverTorn | internal/state/state.go:79-113 | Under any saves, deletes and crashes, the record file of an id is absent or holds one whole record given to a save of that id. |
| StoreFiles.OneStepEffects | internal/state/state.go:105-110 | Each save and each delete changes what is visible in exactly one step, its rename or its unlink, and no other step changes anything visible. |
| StoreFiles.SuccessMeansRenamed | internal/state/state.go:79-113 | From its start to its return, a save reports success if and only if it renamed its file into place, and then its record was what every reader saw. |
| StoreFiles.DeleteLeavesNothing | internal/state/state.go:162-170 | When a delete succeeds the sandbox's directory and record are gone. |
| StoreFiles.List | internal/state/state.go:136-159 | Returns, in any order and without repeats, the records of the directories that hold one of their own and could be read, and skips exactly the others. |
| StoreFiles.ListedIsVisible | internal/state/state.go:136-159 | In every history List misses no visible record that can be read, and returns nothing else. |
| Extractor.CacheIsSound | internal/seed/seed.go:98-162 | The cached file is absent or a whole, ELF-checked binary of an image that was run for that key, under any callers, failures and crashes. |
| Extractor.CacheIsForever | internal/seed/seed.go:104-114 | What is cached for a key stays cached, unchanged, through every later call and crash. |
| Extractor.ExtractionsExclude | internal/seed/seed.go:109-135 | Two calls are never both between lock and unlock, and a call that started a container has tried to delete it before it unlocks. |
| Extractor.OneExtractionPerKey | internal/seed/seed.go:104-114 | Without failures, every call that returns has found the key cached, after exactly one extraction. |
| ExtractorCleanup.LeftBehindOnlyByErrors | internal/seed/seed.go:134-146 | In every history, a call that returned has left its temporary file behind only if its copy reported an error, and its container only if its delete did. |
| ExtractorWitness.PartialCopyIsLeft | internal/seed/seed.go:142-146 | A history in which a copy fails part way and its file stays: the clean-up is armed only after the copy. |
| Extractor.OwnBinaryIff | internal/seed/seed.go:98-126 | If images of one digest hold the same binary, a call that succeeds finds the one of the digest it read if and only if the tag had not moved when the extraction that filled the cache ran it. |
| ExtractorWitness.MovedTagIsCached | internal/seed/seed.go:99-126 | For any key and digest, a tag that moves to another ELF image before the container starts gets that image's binary cached under the key. |
| SeedNames.ExtractionNameClash | internal/seed/seed.go:119-124 | Some extraction container's name is a sandbox's VM name exactly when the id is extract- followed by a short digest, a process id and an attempt number. |
| SeedNames.ClashingIdIsValid | internal/seed/seed.go:119-124 | Such an id passes the id check. |
| SeedNames.SanitizesAlike | internal/seed/seed.go:72-81 | Two references sanitize alike exactly when they differ at most where both have a dash or an unsafe character. |
| SeedNames.CacheKeysClashIff | internal/seed/seed.go:72-103 | Two images share a cache key if and only if their short digests are equal and their references differ at most where both have a dash or an unsafe character. |
| SeedNames.DigestKeysClashIff | internal/seed/seed.go:83-103 | Of real digests, two images share a key if and only if the first twelve digits agree and the references differ at most where both have a dash or an unsafe character. |
| SeedNames.CacheKeysCanClash | internal/seed/seed.go:72-103 | For any digest, a slash and a colon are not told apart. |
| ManagedBlock.RemoveManagedBlock | internal/hostsetup/hostsetup.go:112-133 | The shrinking loop terminates and computes the recursive removal. |
| ManagedBlock.UpsertManagedBlock | internal/hostsetup/hostsetup.go:97-107 | Writes the block after what removal leaves, newline-terminated, or alone when that is blank. |
| ManagedBlock.MarkersAreUsable | internal/hostsetup/hostsetup.go:27-28 | The two marker lines are what the editor's laws ask for. |
| ManagedBlock.RemoveRemoves | internal/hostsetup/hostsetup.go:112-133 | The result never contains the begin marker, even where joining head and rest forms a new one. |
| ManagedBlock.RemoveIsIdempotent | internal/hostsetup/hostsetup.go:112-133 | Removing twice is removing once. |
| ManagedBlock.RemoveIdle | internal/hostsetup/hostsetup.go:113-117 | A text without a begin marker is left as it is. |
| ManagedBlock.RemoveUnweaves | internal/hostsetup/hostsetup.go:109-133 | From text around any number of well-formed LF or CRLF blocks, removal gives back exactly that text, but for blank text before the first text that holds something. |
| ManagedBlock.DamagedBlockIsCut | internal/hostsetup/hostsetup.go:118-121 | A block without an end marker takes the rest of the file with it; of the text before it only the trailing line breaks change, into one newline. |
| ManagedBlock.UpsertRepairs | internal/hostsetup/hostsetup.go:97-121 | An upsert of such a file keeps what comes before the damaged block and writes a whole one after it. |
| ManagedBlock.RemoveUndoesUpsert | internal/hostsetup/hostsetup.go:97-133 | For every text, removal after an upsert gives what the block was added to. |
| ManagedBlock.UpsertReplaces | internal/hostsetup/hostsetup.go:95-107 | For every text, upserting twice is upserting the second time only. |
| ManagedBlock.UpsertThenRemove | internal/hostsetup/hostsetup.go:95-133 | For a text that holds something and no block, upsert then remove gives it back, newline-terminated. |
| ManagedBlock.ExactlyOneBlock | internal/hostsetup/hostsetup.go:97-107 | After an upsert the begin marker occurs at exactly one place, the start of the new block. |
| Shell.QuotingRoundTrip | internal/hostsetup/hostsetup.go:89-93 | The shell reads a quoted value as one word with that value exactly when it has no NUL. |
| Shell.QuotedReads | internal/hostsetup/hostsetup.go:91-93 | In any context of unquoted input a quoted value adds exactly itself to the word. |
| Shell.SettingsAreProper | internal/hostsetup/hostsetup.go:79-87 | The five settings have shell names, and their unquoted values need no quoting. |
| Shell.LinesAreSourced | internal/hostsetup/hostsetup.go:79-87 | Sourcing the joined lines assigns each setting its value, in order. |
| Shell.SourceAppend | internal/hostsetup/hostsetup.go:74-78 | Sourcing a file is sourcing its beginning and then the rest, if its last line is closed. |
| Shell.BlockIsSourced | internal/hostsetup/hostsetup.go:97-98 | Sourcing the written block assigns its settings and nothing else. |
| Shell.SettingsSelect | internal/hostsetup/hostsetup.go:79-87 | The five variables hold the driver, the socket, the bind address, the mTLS switch and the TLS directory, each under its own name, and every other variable is the user's. |
| Shell.SetupIsSourced | internal/hostsetup/hostsetup.go:79-107 | After setup, sourcing gateway.env gives the user's own environment with the five settings assigned, the paths exactly as given. |
| Strings.SortingIsUnique | internal/backend/cli.go:133-140 | There is one increasing sequence of a set of keys, so sorting removes the map's order. |
| RunArgs.SortedKeys | internal/backend/cli.go:133-140 | The keys, each once, in increasing order. |
| RunArgs.RunArgs | internal/backend/cli.go:86-131 | The command line built by the loops is a function of the spec, whatever the map order. |
| RunArgs.RoundTrip | internal/backend/cli.go:86-131 | A flag parser recovers the spec, sizes that are not positive being absent, if and only if the image has no leading dash, no environment or label name an equals sign, and no volume path a colon. |
| RunArgs.VolumeRoundTrip | internal/backend/cli.go:91-97 | A volume flag's value reads back as the volume it was built from. |
| Strings.IntRoundTrip | internal/backend/cli.go:107-118 | A formatted number reads back as itself. |
| RunArgs.ReadIsReadable | internal/backend/cli.go:86-131 | Whatever a command line says, the spec read from it has none of those characters in those places. |
| SandboxEnv.SandboxEnv | internal/grpcsvc/env.go:91-171 | Succeeds exactly when every user entry has a usable name and value, in any order of iteration, and builds the environment of the request; an error names an entry at fault. |
| SandboxEnv.TakeUser | internal/grpcsvc/env.go:108-123 | Deleting owned names while walking the map leaves exactly the entries that are not owned, and the environment extended by them. |
| SandboxEnv.NamesAreUsable | internal/grpcsvc/env.go:15-33 | The nineteen owned names are pairwise different, differ from the other defaults and hold no equals sign. |
| SandboxEnv.EnvTellsRequest | internal/grpcsvc/env.go:108-151 | From the environment alone the guest can tell the sandbox's id and name, the process to run, and exactly which user entries survived the deletion of owned names. |
| SandboxEnv.EnvNamesTheSandbox | internal/grpcsvc/env.go:95-148 | Endpoint, id and name are each under their own variable, and the path is the driver's. |
| SandboxEnv.EnvSwitchesOff | internal/grpcsvc/env.go:149-161 | Telemetry is off; the network capabilities and the numeric identity are set and empty. |
| SandboxEnv.EnvFollowsTheRequest | internal/grpcsvc/env.go:72-80 | The command given is the main process as it is, else the scratch shell; log level and agent socket are the request's, else the defaults. |
| SandboxEnv.EnvHasCredentials | internal/grpcsvc/env.go:163-170 | The TLS trio exactly for https endpoints, the token file exactly with a token, all under the seed directory. |
| SandboxEnv.EnvEncodesTheUser | internal/grpcsvc/env.go:124-130 | The encoded user environment is there exactly when an entry survived, and holds exactly the survivors. |
| SandboxEnv.UserEntriesAreClean | internal/grpcsvc/env.go:108-123 | No entry of an accepted user environment has a blank name, an equals sign in its name or a NUL. |
| SandboxEnv.UnownedValue | internal/grpcsvc/env.go:95-123 | A name that is not owned has the request's value, else the template's, else the default. |
| SandboxEnv.EnvIsUnique | internal/grpcsvc/env.go:108-123 | The environment is determined by the request: iteration order does not show. |
| SandboxEnv.NonInterference | internal/grpcsvc/env.go:72-78 | Requests that differ only in user or template environment agree on every driver-owned variable but the user-environment encoding. |
| SandboxEnv.NeverSet | internal/grpcsvc/env.go:88-90 | The raw token, the TLS server name and the image user never come from the environment builder. |
| SandboxEnv.NamesHaveNoEquals | internal/grpcsvc/env.go:112-114 | No name of an accepted environment holds an equals sign. |
| Paths.AtOrUnderIsSegmentPrefix | internal/grpcsvc/driverconfig.go:200-204 | On clean paths the text-prefix test is the prefix relation on path segments. |
| Paths.CleanIsIdempotent | internal/grpcsvc/driverconfig.go:194-196 | Cleaning a clean path changes nothing. |
| Paths.SegmentsFollow | internal/grpcsvc/driverconfig.go:194-196 | Cleaning follows a path segment by segment: nothing and one dot stay, two dots leave the last directory but never the root, anything else enters. |
| Paths.SegmentsOfRender | internal/grpcsvc/driverconfig.go:194-196 | Reading a rendered path gives its segments back. |
| Paths.PathWithinIff | internal/grpcsvc/driverconfig.go:179-183 | For an absolute path the containment test agrees with the segments exactly unless the root is the whole filesystem and the path is not; a relative root holds no absolute path. |
| Mounts.Validate | internal/grpcsvc/driverconfig.go:84-114 | Accepts exactly the valid configurations and otherwise reports the first mount at fault with its fault. |
| Mounts.ValidIff | internal/grpcsvc/driverconfig.go:84-114 | Accepted are exactly: volumes of absolute host paths and sourceless tmpfs, each at a free target of its own, a network name without blanks, an absolute kernel path or none. |
| Mounts.FaultsTell | internal/grpcsvc/driverconfig.go:84-114 | Each reported fault is what it says of the mount. |
| Mounts.Assemble | internal/grpcsvc/create.go:284-301 | The seed volume first, then volumes and tmpfs in order, read-only unless said otherwise. |
| Mounts.VolumesAreTheMounts | internal/grpcsvc/create.go:284-301 | Every planned volume comes from a volume mount, its own source at its own target, writable only if that mount says so, and every volume mount is planned. |
| Mounts.TmpfsAreTheMounts | internal/grpcsvc/create.go:284-301 | The planned tmpfs targets are exactly those of the tmpfs mounts. |
| Mounts.PlannedInOrder | internal/grpcsvc/create.go:284-301 | Mounts one after the other are planned one after the other. |
| Mounts.TargetsAreKept | internal/grpcsvc/create.go:284-301 | The guest paths handed over are, as a multiset, the targets asked for. |
| Mounts.GuestTargetsAreDistinct | internal/grpcsvc/driverconfig.go:84-114 | The seed and the user's mounts have pairwise different guest paths. |
| Mounts.NoneUnderReserved | internal/grpcsvc/driverconfig.go:187-206 | No accepted target is at or under a reserved path, segment by segment. |
| Mounts.AcceptedTargets | internal/grpcsvc/driverconfig.go:187-206 | A target is accepted exactly when it is an absolute clean path, not the root, not at or under a reserved path. |
| Mounts.ReservedIsOk | internal/grpcsvc/driverconfig.go:21-28 | The reserved list holds clean paths and includes the seed mount. |
| Mounts.ParentIsAccepted | internal/grpcsvc/driverconfig.go:18-28 | /etc is accepted although mounting over it hides a reserved path. |
| MountPolicy.NetworkAllowed | internal/grpcsvc/driverconfig.go:140-151 | True exactly for the driver's own network and the listed ones. |
| MountPolicy.CheckPolicy | internal/grpcsvc/driverconfig.go:120-138 | Permits exactly what the operator's mount and network policy allows, and otherwise reports the first mount it denies. |
| MountPolicy.SourcesStayBelowRoot | internal/grpcsvc/driverconfig.go:152-183 | With a root configured, every host directory a valid, permitted configuration mounts lies, links followed, at or below the root, segment by segment. |
| Quantity.ParseMemory | internal/grpcsvc/quantity.go:57-84 | The loop over the suffix table computes the rounded-up size of the unit the text ends with. |
| Quantity.RoundUpIsLeast | internal/grpcsvc/quantity.go:33-41 | A size is refused exactly when it is no finite number or below zero, else it is the least whole number that covers it, zero exactly for zero. |
| Quantity.CpuCovers | internal/grpcsvc/quantity.go:13-42 | The vCPUs cover the cores asked for and one less would not. |
| Quantity.MemoryCovers | internal/grpcsvc/quantity.go:57-84 | The mebibytes cover the bytes asked for and one less would not. |
| Quantity.BytesMean | internal/grpcsvc/quantity.go:45-75 | The bytes asked for are none for a blank text, the number times the power of 1024 or 1000 that the suffix stands for, the number alone without a suffix. |
| Quantity.CoresMean | internal/grpcsvc/quantity.go:13-32 | The cores asked for are none for a blank text, thousandths with an m, the number otherwise. |
| Quantity.PaddingIsMoot | internal/grpcsvc/quantity.go:57-58 | Blanks around a quantity are ignored, and nothing else is. |
| Quantity.MemoryIsMonotone | internal/grpcsvc/quantity.go:57-84 | More of the same unit, or of plain bytes, never gives a smaller VM. |
| Quantity.CpuIsMonotone | internal/grpcsvc/quantity.go:13-42 | More cores, or more thousandths, never give fewer vCPUs. |
| Quantity.RoundUpIsMonotone | internal/grpcsvc/quantity.go:33-41 | A larger amount never gives a smaller size. |
| Quantity.UnitsAreUnambiguous | internal/grpcsvc/quantity.go:45-52 | No text ends in two suffixes of the table. |
| Quantity.OrderIsMoot | internal/grpcsvc/quantity.go:45-52 | A table of the same units in any other order reads every quantity the same. |
| Quantity.FirstQuantity | internal/grpcsvc/create.go:341-352 | The first size above zero; zero exactly when all are; an error only at the first candidate that does not parse, after zeros. |
| Quantity.ChooseSize | internal/grpcsvc/create.go:250-264 | The limit if above zero, else the request, else the driver's default; what is not reached need not parse. |
| BootSpec.TagIsDropped | internal/grpcsvc/create.go:354-365 | Pinning a reference drops its tag, and a registry port is not taken for one. |
| BootSpec.RunImagePins | internal/grpcsvc/create.go:178-191 | The image booted is the untagged repository at the digest observed; without a digest, or where the reference has one of its own, it is the reference. |
| BootSpec.RepositoryIsUnique | internal/grpcsvc/create.go:354-365 | A reference has one repository, so its pinned image is determined. |
| BootSpec.PinnedImageIsUndashed | internal/grpcsvc/service.go:151-156 | Pinning an accepted image gives it no leading dash. |
| BootSpec.Labels | internal/grpcsvc/create.go:238-246 | The template's labels overlaid with the five of the driver. |
| BootSpec.TemplateCannotForge | internal/grpcsvc/create.go:238-246 | The five identity labels are always the driver's, every other label the template's. |
| BootSpec.LabelsDiffer | internal/grpcsvc/create.go:33-40 | The five label names are pairwise different. |
| BootSpec.BuildSpec | internal/grpcsvc/create.go:140-331 | A spec exactly when configuration, environment, sizes and kernel are all acceptable. It follows the boot part by part: name, image pinned to the digest, network and kernel (the sandbox's own win), sizes, seed and mounts, labels, guest root, around the environment of the request. |
| BootSpec.TagDoesNotMatter | internal/grpcsvc/create.go:178-191 | Requests that differ only in their tag boot the same spec once the digest is known. |
| BootSpec.SpecAnswersRequest | internal/grpcsvc/create.go:238-331 | From the request to the VM: its name, its labels and its image are those of the request, the default image exactly when none was asked for. |
| BootSpec.ImageUserIsTheImages | internal/grpcsvc/create.go:233-236 | The image-user variable is the image's and no user environment can supply it. |
| BootSpec.BootCommandMeansSpec | internal/backend/cli.go:86-131 | For an accepted sandbox the command line means exactly its spec if and only if no volume path or seed directory holds a colon and no template label name an equals sign. |
| BootSpec.AcceptedButMisread | internal/grpcsvc/driverconfig.go:84-114 | A sandbox with the volume /a:b passes every check, and its command line does not mean its spec. |
| Admission.CheckCreate | internal/grpcsvc/create.go:60-69 | A create goes on exactly with a request that passes every check and an endpoint configured. |
| Admission.ValidateSandbox | internal/grpcsvc/service.go:134-174 | Accepts what passes all ten checks and otherwise refuses at the first that fails, in the source's order. |
| Admission.OnlyTwoRefusalsLeft | internal/grpcsvc/service.go:134-174 | What create lets through, a boot can refuse only for an entry of the user environment or for a kernel file that is not there. |
| Admission.AcceptedCommandMeansSpec | internal/backend/cli.go:86-131 | The command line of an accepted request for an image of its own means exactly its spec if and only if the separators do not occur in the names they separate. |
| Admission.AcceptedMountsAreConfined | internal/grpcsvc/driverconfig.go:120-206 | No mount of an accepted request leaves the operator's root, links followed, and none is under a reserved path. |

## Left out

- StopIntent.StopIntentSurvives: takes a poll, from its list call to its last save, as one step (any of the saves may fail), because a list from before a stop can be applied after it; StopIntentFine.StopIntentIff says exactly what that costs.
- StoreMirror.StoreMirrorsRegistry: takes a poll as one step and every save as successful, because a poller's save can land after a newer one.
- Handlers.Driver.Operate: is the undisturbed call; other threads' steps between its own are in the transition system, not in the class.
- Handlers.Driver.StopOrStart: is the undisturbed call, likewise.
- Handlers.Driver.Delete: is the undisturbed call, likewise; so a wait for a goroutine that goes on can only run into its deadline.
- Handlers.Driver.Provision: is disturbed by nothing but a cancellation, likewise.
- Handlers.Driver.Prepare: takes image lookup, extraction, seed, environment and sizing as two outcomes, found and prepared; the last two are in BootSpec.
- Extractor.OneExtractionPerKey: is about runs without failures, because a failed extraction is repeated by the next caller.
- SeedNames.CacheKeysClashIff: is about short digests of equal length or without dashes, as hexadecimal digests are.
- Quantity.MemoryCovers: reads numbers as exact reals and sizes as unbounded; float64 rounding and results of 2^63 or more are not modelled. The number parser itself is a parameter.
- RunArgs.RoundTrip: the reader takes the word after a flag as its value and the first word without a dash as the image; the container tool's own parser is not part of this repository.
- Shell.SetupIsSourced: is about files of comments, empty lines and assignments without expansions or double quotes, whose last line no backslash joins to the next.
- BootSpec.BuildSpec: does not repeat the operator's mount and network policy, which is checked at create only (MountPolicy).
- BootSpec.BootCommandMeansSpec: takes the image of the driver's default configuration, which is not validated, to have no leading dash.
- gRPC transport, generated code, JSON, XML and x509: the JSON encodings are parameters of SandboxEnv.
- Execution of the container tool and parsing of its output: abstracted by the runtime steps of Lifecycle, with a not-found result.
- Timestamps, log lines and message texts: a condition is its status, its reason and whether a console tail is attached.
- Lookup by name: entries are found by id, because map order decides between entries of one name.
- Containers outside the driver's name prefix, and orphan labels set by hand: a container that was not booted for a sandbox carries the managed label only with an empty sandbox label.
- Reuse of ids: a gateway id is used for one create, and is not deleted before that create returned (docs/CONTRACT.md:79).
- Decoding of a driver config: Admission takes the decoded config, or none.
- Image listing, pulling and the fallback supervisor image: one step that succeeds or fails.
- Platform events and the deleted flag of a delete's response: not read by the driver again.
- Reuse of a temporary file's random name while an earlier one is still held: names in StoreFiles are fresh.
- Symlink resolution itself, file modes and TLS material: foreign calls; MountPolicy takes the resolution as a parameter that keeps absolute paths absolute.
- Setup, status, update and cleanup commands, socket ownership, version ordering and flag parsing: host operations, or easy members.
- Seed material writing: it is not read back by the driver.
