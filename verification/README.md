# kezio in Dafny

A model of the parts of kezio, a bare-metal deployment operator for Kubernetes,
whose correctness is not visible in any one function, with machine-checked
proofs of what they are for. `dafny verify dfyconfig.toml` checks everything.

| file | what it models |
|---|---|
| `DiskMatch.dfy` | the claim layer's hardware matching: Kuhn's algorithm over disks and disk requirements |
| `Mac.dfy`, `Hostsfile.dfy` | MAC normalization; the dhcp-hostsfile printer, with a reader of the same syntax |
| `MacCache.dfy` | bootd's reference-counted index of boot MACs, a class updated in place |
| `SubnetDhcp.dfy` | the Subnet cache: the reservation table it pushes and the acknowledgement it writes back |
| `Supervisor.dfy` | the critical sections of the dnsmasq supervisor, a class whose methods are tied to functions on the guarded fields |
| `Bootd.dfy` | the Machine cache, any number of Subnet pushers, the hostsfile loop and the dnsmasq child as one step system, split at every lock and select |
| `BootdWakeup.dfy`, `BootdApplied.dfy`, `BootdReleases.dfy`, `BootdSift.dfy`, `BootdAck.dfy`, `BootdGate.dfy` | what every run of that system keeps: no lost wake-up, what an acknowledgement proves, conservation of lease releases, which MACs a Subnet push releases, which revision is served and when it is recorded, the startup gate |
| `BootdProgress.dfy` | what its threads achieve undisturbed |
| `LockOrder.dfy` | the four mutexes, taken step by step by any number of threads |
| `ClaimBinding.dfy` | the MachineClaim controller over an API server with resource versions: one reconcile per claim key, any interleaving between keys, a crash possible between any two calls |
| `ClaimOutcome.dfy` | what one undisturbed reconcile of a claim comes to |
| `Seeder.dfy` | the grace-period machine of an Image's seeder Deployment |
| `Progress.dfy`, `RunGC.dfy` | folding an agent's reports into a DeployRun; collecting old DeployRuns |
| `LeaseRange.dfy`, `CommandLine.dfy` | lease-range arithmetic in wrapping uint32; the kernel command line printer and parser |
| `Common.dfy`, `Text.dfy` | sets, sorting and searching used by the rest |

## Where the code and its documentation disagree

The model follows the code.

- A Failed claim is documented as terminal, but only phase Bound is treated
  specially: a Failed claim is reconciled like a Pending one and can bind
  (`ClaimBinding.FailedIsNotTerminal`). `ClaimOutcome.EndsFailedIff` shows that
  it stays Failed exactly while it names a Machine that does not exist and no
  Machine carries it.
- `minRequeue` is meant to keep the earliest delay any Site asked for, but an
  error at any Site, or in the condition update after them, drops all delays:
  `Seeder.RequeueMeetsDeadline` shows that the merged requeue meets a countdown's
  deadline exactly when there is no such error.
- A push sets the current revision before it stores the table, and the informer
  and the resync ticker can push at once. As long as no push begins while a
  pending one carries another revision, the two agree whenever no push is pending
  (`BootdAck.UnmixedPushesAgree`), however many pushes of one revision overlap;
  and every push that does so can leave the older revision's table stored under
  the newer revision (`BootdAck.MixingCanSwap`). A revision that is superseded and comes back can
  stay unrecorded without any failure (`BootdAck.ReturnedStaysUnrecorded`), and
  that is the only way (`BootdAck.QuietMeansRecorded`).
- The guard that refuses a lease range for networks without host addresses
  computes `^m - 1` in uint32. For prefix 32 it wraps and lets the network
  through; `LeaseRange.DerivesHostsIff` shows that this is the only prefix for
  which the derived range is wrong.
- A disk size floor of 2^33 GiB or more wraps in int64;
  `DiskMatch.SizeFloorExactIff` shows that these are exactly the floors the code
  gets wrong, `DiskMatch.SizeFloorWraps` gives an empty disk that passes.
- A failed rewrite of the hostsfile is the one exit of the hostsfile loop that
  does not nudge it again. `BootdWakeup.NoLostWakeup` shows it is the only way to
  be quiet and stale, `BootdWakeup.FailedWriteStaysStale` that it happens.
- `clearClaimRef` patches without a version. It spares other claims' bindings in
  every interleaving of reconciles (`ClaimBinding.PatchSparesForeignBindings`),
  unless somebody removes the Machine or its reference between the read and the
  patch, and every such removal can end in a foreign binding erased
  (`ClaimBinding.InterferenceCanErase`).

## Model

| member | source | states |
|---|---|---|
| DiskMatch.DisksSatisfy | internal/controller/machineclaim_match.go:47-75 | answers true exactly when some injective assignment gives every requirement a matching disk of its own, for all lists including empty ones |
| DiskMatch.TryAugmentDiskMatch | internal/controller/machineclaim_match.go:81-93 | terminates; on success every holder among the disks unvisited at entry keeps a distinct adjacent disk, the requirement is added and nothing else moves; on failure the matching is unchanged and the disks visited are all held and closed under their holders' options |
| DiskMatch.DisplaceHolder | internal/controller/machineclaim_match.go:86-90 | overwriting a disk after its holder found another place turns the inner search's result into the outer one's, although that holder sits on two disks in between |
| DiskMatch.ViolatorFromSearch | internal/controller/machineclaim_match.go:70-72 | a failed search proves that no assignment exists, by the Hall violator made of its visited disks and their holders |
| DiskMatch.ViolatorBlocksAssignment | internal/controller/machineclaim_match.go:51-53 | requirements that jointly match fewer disks than they are many cannot all be assigned |
| DiskMatch.PlaceRequirement | internal/controller/machineclaim_match.go:69-72 | from a matching of the first i requirements, either one of the first i+1 or a proof that no assignment exists |
| DiskMatch.AssignmentFromMatching | internal/controller/machineclaim_match.go:68-74 | a matching that holds every requirement yields an assignment |
| DiskMatch.BuildAdjacency | internal/controller/machineclaim_match.go:55-62 | the rows list exactly the matching disks of each requirement |
| DiskMatch.HardwareMatchesSelector | internal/controller/machineclaim_match.go:33-41 | accepts exactly the hardware above both floors whose disks admit an assignment |
| DiskMatch.SizeFloorExactIff | internal/controller/machineclaim_match.go:98-112 | the code decides the documented requirement on every disk if and only if the floor is below 2^33 GiB |
| DiskMatch.SizeFloorWraps | internal/controller/machineclaim_match.go:105-107 | a floor of 2^34 GiB admits a disk of size zero |
| Mac.NormalizeIdempotent | internal/bootd/mac.go:41-46 | a normalized MAC is its own normal form |
| Mac.NormalizeKeepsAddress | internal/bootd/mac.go:41-46 | the normal form of a MAC spells the same address, digit value by digit value, and has no upper-case digit |
| Mac.SameNormalFormIff | internal/bootd/mac.go:31-46 | two MACs have the same normal form exactly when they spell the same address |
| Mac.NormalizedIsPlain | internal/bootd/mac.go:29-46 | a normalized MAC holds no separator of the hostsfile |
| Hostsfile.RenderHostsfile | internal/bootd/render.go:385-401 | the loop over the sorted, compacted list yields the rendering the lemmas below are about |
| Hostsfile.RenderRoundTrip | internal/bootd/render.go:385-401 | reading a rendered file back gives exactly the admitted MACs, each with its pinned address or none |
| Hostsfile.RenderCanonical | internal/bootd/dnsmasq.go:591-598 | two inputs render to the same bytes exactly when they admit the same MACs with the same pins, so skipping an identical rewrite loses nothing |
| Hostsfile.ReservationsAdmitNobody | internal/bootd/render.go:385-401 | whatever is reserved, the admitted MACs are the enrolled ones |
| Text.LeqIsLexicographic | internal/bootd/render.go:385-401 | the order entries are sorted in is the lexicographic one: the first difference decides and a prefix comes first |
| MacCache.MACCache.ApplyLocked | internal/bootd/maccache.go:239-255 | after any event both counts equal a recount over the Machines then known, with invalid MACs left out |
| MacCache.MACCache.AddRecordLocked | internal/bootd/maccache.go:274-279 | turns a recount of the other records into a recount including the new one |
| MacCache.MACCache.RemoveRecordLocked | internal/bootd/maccache.go:281-294 | turns a recount into a recount without the removed record |
| MacCache.MACCache.Deliver | internal/bootd/maccache.go:184-230 | after any history of add, update, delete and tombstone events, repeated or malformed ones included, the index is the recount of the Machines that history describes and the sink's last value lists them |
| MacCache.MACCache.OnAdd | internal/bootd/maccache.go:184-193 | keeps the index a recount and the sink current |
| MacCache.MACCache.OnUpdate | internal/bootd/maccache.go:195-208 | replaces the old object's entry, keeps the index a recount and the sink current |
| MacCache.MACCache.OnDelete | internal/bootd/maccache.go:210-230 | forgets the Machine, also out of a tombstone, and ignores anything else |
| MacCache.MACCache.MarkSynced | internal/bootd/maccache.go:142-145 | the sink, untouched before, now holds the sorted set of valid enrolled MACs |
| MacCache.MACCache.PushLocked | internal/bootd/maccache.go:177-182 | hands over nothing before sync and one current allowlist after it |
| MacCache.MACCache.SnapshotLocked | internal/bootd/maccache.go:164-171 | whatever order the map is ranged in, the result lists each enrolled MAC once, in order |
| MacCache.MACCache.HasLocalMember | internal/bootd/maccache.go:305-312 | true exactly when synced and some Machine of this bootd's Subnet claims the MAC |
| MacCache.MACCache.constructor | internal/bootd/maccache.go:103-112 | starts as the recount of no Machines, unsynced, with nothing pushed |
| MacCache.IncrementTallies | internal/bootd/maccache.go:274-279 | counting one record more keeps the tally equal to the number of claimants, for every MAC |
| MacCache.DecrementTallies | internal/bootd/maccache.go:281-294 | uncounting a record keeps the tally exact and drops a MAC exactly when its last claimant goes |
| MacCache.RecountUnique | internal/bootd/maccache.go:239-255 | there is only one index that agrees with a recount |
| MacCache.CountsListEnrolled | internal/bootd/maccache.go:164-171 | a MAC has a count exactly when some Machine claims it |
| MacCache.KnownByLastNews | internal/bootd/maccache.go:184-230 | after any history, the Machine known under a key is the one its last add or update told of, and none after a delete or tombstone |
| MacCache.SilenceKeeps | internal/bootd/maccache.go:184-230 | events about other keys, and malformed ones, leave a key as it was |
| MacCache.KeysAreDistinct | internal/bootd/maccache.go:240-240 | Machines of one name in two namespaces have different keys |
| MacCache.LocalToOneSubnet | internal/bootd/maccache.go:260-266 | a Machine that names a Subnet is local to exactly one, in its own namespace unless it names another; one that names none is local nowhere |
| SubnetDhcp.SubnetDHCPCache.Push | internal/bootd/subnetdhcp.go:213-234 | pushes, under the Subnet's revision, the table that pins a MAC exactly when a reservation names it in some spelling, to the last one's address; outside lease mode, or without a status, the empty table under no revision |
| SubnetDhcp.SubnetDHCPCache.OnEvent | internal/bootd/subnetdhcp.go:189-208 | pushes for this cache's own Subnet once synced, out of a tombstone too, and otherwise does nothing |
| SubnetDhcp.SubnetDHCPCache.MarkApplied | internal/bootd/subnetdhcp.go:241-270 | a stale revision, a missing Subnet or a refused patch leaves the Subnet as stored; otherwise its applied revision is the reported one, and nothing else differs |
| SubnetDhcp.TableGrows | internal/bootd/subnetdhcp.go:218-224 | a later reservation overrides earlier spellings of its MAC, a malformed one is skipped |
| SubnetDhcp.TableUnique | internal/bootd/subnetdhcp.go:213-225 | the reservations determine the table |
| SubnetDhcp.TableIsNormalized | internal/bootd/subnetdhcp.go:219-223 | every pinned MAC is in normal form |
| SubnetDhcp.RenderedTablePins | internal/bootd/subnetdhcp.go:213-234 | from the Subnet's status to the rendered file: an allowed MAC is pinned to its last reservation's address, or to none when no reservation names it |
| SubnetDhcp.AcknowledgeKeepsPush | internal/bootd/subnetdhcp.go:259-266 | writing the applied revision never changes what a push reads |
| SubnetDhcp.AcknowledgeRecords | internal/bootd/subnetdhcp.go:259-267 | an acknowledged revision is on the Subnet, next to the status as it was |
| Supervisor.ComputeMacDiff | internal/bootd/leaserelease.go:51-63 | the loop yields the difference the lemma below describes |
| Supervisor.MacDiffIsDifference | internal/bootd/leaserelease.go:51-63 | for an allowlist without repeats, each departed MAC is named once and nothing else is |
| Supervisor.Dnsmasq.SetAllowedMACs | internal/bootd/dnsmasq.go:275-288 | stores the list, queues the departed MACs in lease mode only, opens the startup gate and leaves the loop nudged |
| Supervisor.Dnsmasq.SetReservations | internal/bootd/dnsmasq.go:308-350 | stores table and revision together and queues, once each, the still allowed MACs that lost their reservation and left this Subnet |
| Supervisor.Dnsmasq.StoreTable | internal/bootd/dnsmasq.go:309-315 | table and revision change in one section that also reads what the release candidates depend on |
| Supervisor.Dnsmasq.QueueFound | internal/bootd/dnsmasq.go:339-343 | appends the MACs found to whatever the queue holds by then |
| Supervisor.Dnsmasq.TakeSnapshot | internal/bootd/dnsmasq.go:579-585 | everything a tick works from comes from one instant, and the whole release queue is taken over |
| Supervisor.Dnsmasq.RequeueDirty | internal/bootd/dnsmasq.go:239-244 | the slot is full afterwards, whether or not the send was swallowed |
| Supervisor.Dnsmasq.NoteHostsfileRead | internal/bootd/dnsmasq.go:184-193 | counts the read and wakes whoever had armed the signal |
| Supervisor.Dnsmasq.CheckReadAfter | internal/bootd/dnsmasq.go:213-222 | a read past the baseline confirms, otherwise a signal is armed before waiting |
| BootdWakeup.NoLostWakeup | internal/bootd/dnsmasq.go:561-635 | in every run, once a setter has completed, when the loop is idle without a token and no setter is mid-call: the file is the rendering of the current state and was read since it was written, no release is pending and the current revision was reported, if and only if the last tick did not fail to write |
| BootdWakeup.NoMissedRead | internal/bootd/dnsmasq.go:209-232 | a waiter nobody woke has armed its signal and no confirming read has happened |
| BootdWakeup.FailedWriteStaysStale | internal/bootd/dnsmasq.go:591-595 | for every MAC a run that ends quiet and stale after a failed write |
| BootdWakeup.StepKeeps | internal/bootd/dnsmasq.go:239-350 | every step of every thread keeps the wake-up invariant: awake, or the tick's snapshot is still current, or settled |
| BootdApplied.AppliedMeansServed | internal/bootd/dnsmasq.go:554-636 | whenever OnApplied fires, a child has read, after it was written, a file rendered from exactly the reservations pushed with that revision and from an allowlist of the cache, and that file is still the current one |
| BootdApplied.ReportsFollowPushOrder | internal/bootd/subnetdhcp.go:241-270 | reports name strictly later pushes each time, and so do the recorded applied revisions, each of which had been reported |
| BootdApplied.ReadsAdmitOnlyAllowed | internal/bootd/maccache.go:135-149 | fail-secure: every file a child ever reads was rendered from an allowlist the synced cache had pushed, or admits nobody |
| BootdApplied.StepKeeps | internal/bootd/dnsmasq.go:308-350 | every step of every thread keeps the invariant that ties snapshots, the file and the reports to the log of pushes, writes and reads |
| BootdAck.HeldAndStoredRevisions | internal/bootd/subnetdhcp.go:227-233 | in every run, the revision held for current is that of the push begun last, and the one stored that of the push stored last |
| BootdAck.UnmixedPushesAgree | internal/bootd/subnetdhcp.go:213-234 | in every run in which no push begins while a pending one carries another revision, the revision held for current is the one stored whenever no push is pending; overlapping pushes of one revision are included |
| BootdAck.MixingCanSwap | internal/bootd/subnetdhcp.go:227-233 | the converse: in every state, a push that begins while a pending one carries another revision has a continuation with both stored and the older revision and its table in place under the newer revision |
| BootdAck.QuietMeansRecorded | internal/bootd/subnetdhcp.go:241-270 | quiet, without a failed write and with the current revision served, the last report is the newest record on the Subnet exactly when its patch did not fail, unless its revision was superseded and came back |
| BootdAck.ReturnedStaysUnrecorded | internal/bootd/dnsmasq.go:629-634 | in lease mode, with or without member queries, and for any two revisions and their tables, a run in which the first comes back, is current and served, and with no failure stays unrecorded |
| BootdAck.StepKeeps | internal/bootd/subnetdhcp.go:227-249 | every step of every thread keeps the invariant that ties the current revision, the stored one and the decision on the last report to the order of pushes |
| Bootd.HandlerIsStep | internal/bootd/maccache.go:239-255 | every informer event the cache handles is an enabled step of the system that leaves the records of the Machines then known, and an ignored one changes none |
| BootdReleases.ReleasesAreConserved | internal/bootd/dnsmasq.go:579-589 | however signals coalesce, the MACs queued are those handed on, then those a tick holds, then those pending, in order, none lost and none twice |
| BootdReleases.QuietMeansAllReleased | internal/bootd/dnsmasq.go:579-589 | when the loop is quiet everything ever queued has been handed on |
| BootdSift.OnlyDepartedAreQueued | internal/bootd/dnsmasq.go:326-344 | in every run, a MAC the reservation path queues lost its reservation at a logged push while in the allowlist, and when that push asked, the cache was not synced or knew no Machine of this Subnet with it; no push queues a MAC twice |
| BootdSift.AllDepartedAreQueued | internal/bootd/dnsmasq.go:326-344 | conversely, in lease mode with member queries, a push that is through has asked exactly once about every MAC that lost its reservation by it while allowed, and has queued it exactly when no local claim was found |
| BootdSift.QueueHasTwoSources | internal/bootd/dnsmasq.go:275-344 | what is queued is what the allowlist path dropped plus what the reservation path queued, and the latter is nothing without lease mode or member queries |
| BootdSift.QueriesAreReal | internal/bootd/maccache.go:305-312 | every query shows the cache as it was at the step of the run that asked it |
| BootdSift.StepKeeps | internal/bootd/dnsmasq.go:308-350 | every step of every thread keeps the invariant that ties the pushes under way to the log and the queries |
| BootdReleases.AllowlistReleasesExactly | internal/bootd/dnsmasq.go:275-288 | in lease mode the allowlist path queues a MAC exactly as often as its last claiming Machine went away after sync |
| BootdReleases.QuietMeansEnrolledAdmitted | internal/bootd/maccache.go:173-182 | end to end: quiet and without a failed write, the file the child has read admits exactly the boot MACs of the enrolled Machines, with their current reservations |
| BootdGate.NoChildBeforeAllowlist | internal/bootd/dnsmasq.go:405-434 | in lease mode no child is started, and none ever reads the file, before the synced cache has pushed an allowlist |
| BootdProgress.OneTickSettles | internal/bootd/dnsmasq.go:561-635 | one undisturbed tick, whatever nudges came during its debounce, leaves the loop idle without a token, the file current and read, the revision reported and recorded if it is current and new, and every pending release handed on |
| BootdProgress.PushFinishes | internal/bootd/dnsmasq.go:308-350 | a push that has begun stores its table and revision, nudges the loop and ends, leaving other pushes alone |
| BootdProgress.CacheUpdateFinishes | internal/bootd/maccache.go:173-193 | a cache update gives its lock back; after sync the supervisor then holds the listing of the enrolled MACs, the gate is open and the loop is nudged |
| LockOrder.NoDeadlock | internal/bootd/dnsmasq.go:308-350 | for any number of threads and any schedule, while work is left some thread can step |
| LockOrder.ProgramDisciplined | internal/bootd/maccache.go:173-182 | every thread takes a lock only when all it holds rank higher, and ends holding none |
| LockOrder.PushTakes | internal/bootd/dnsmasq.go:308-344 | a push takes the Subnet's mutex, the supervisor's, the cache's once per query, and the supervisor's again if it found something |
| LockOrder.TickTakes | internal/bootd/dnsmasq.go:579-634 | a tick takes the supervisor's mutex, the read counter's once per look, and the Subnet's if it reports |
| LockOrder.CacheEventTakes | internal/bootd/maccache.go:173-193 | a cache update takes the supervisor's mutex inside its own, the one nesting there is |
| LockOrder.RunsAreBounded | internal/bootd/dnsmasq.go:317-344 | no schedule takes more steps than there are operations, so with no deadlock every thread finishes |
| LockOrder.OtherOrderDeadlocks | internal/bootd/dnsmasq.go:317-325 | asking SubnetMember with the supervisor's mutex held would deadlock |
| ClaimBinding.BindingIsExclusive | internal/controller/machineclaim_controller.go:124-157 | in every reachable state a claim UID is on at most one Machine, a recorded machineName is its only possible carrier, and it is recorded exactly in phase Bound |
| ClaimBinding.BindLandsOnFreeMachine | internal/controller/machineclaim_controller.go:479-509 | a reference appears only by a bind, on a Machine unclaimed and Available at that instant, in the claim's namespace and naming the claim being reconciled |
| ClaimBinding.FinalizerRemovedMeansReleased | internal/controller/machineclaim_controller.go:96-116 | when onDelete removes the finalizer no Machine carries the UID, and no continuation of the run makes one carry it |
| ClaimBinding.PatchSparesForeignBindings | internal/controller/machineclaim_controller.go:161-197 | unless the Machine or its reference is removed between read and patch, no reconcile step changes another claim key's binding |
| ClaimBinding.InterferenceCanErase | internal/controller/machineclaim_controller.go:161-168 | the converse: in every reachable state, removing the Machine or its reference between read and patch has a continuation in which the patch erases another claim's binding |
| ClaimBinding.PatchCanEraseForeignBinding | internal/controller/machineclaim_controller.go:161-168 | a state reachable from an empty cluster in which the next patch erases another claim's binding |
| ClaimBinding.CrashedBindIsAdopted | internal/controller/machineclaim_controller.go:332-358 | after a crash between the two writes, the next undisturbed reconcile records the carrying Machine and changes no Machine |
| ClaimBinding.ReconcileBinds | internal/controller/machineclaim_controller.go:367-391 | one undisturbed reconcile binds a claim, in any phase but Bound, to the free Available Machine it names and changes nothing else |
| ClaimBinding.FailedIsNotTerminal | internal/controller/machineclaim_controller.go:199-207 | a reachable Failed claim whose next reconcile binds it, the witness that the comment does not hold |
| ClaimOutcome.EndsFailedIff | internal/controller/machineclaim_controller.go:199-207 | from any phase but Bound, Failed included, and whatever the Lists return, an undisturbed reconcile ends Failed exactly when the claim names a Machine that does not exist and no Machine carries it; it ends Bound when a Machine carries the claim or the named one is free, else only by a selector's choice, and otherwise Pending |
| ClaimOutcome.ReconcileEnds | internal/controller/machineclaim_controller.go:307-328 | such a reconcile always reaches its end |
| ClaimOutcome.SelectorBindsFirstListed | internal/controller/machineclaim_controller.go:395-411 | an undisturbed reconcile of a selector claim nobody carries ends Bound exactly when its List returned some candidate; the first one listed, free until then, carries the claim's key and UID and no other Machine changes |
| ClaimOutcome.NamedBindsNamed | internal/controller/machineclaim_controller.go:367-391 | that of a claim by name ends Bound exactly when the named Machine is unclaimed and Available, and then to it alone |
| ClaimOutcome.CarriedIsAdopted | internal/controller/machineclaim_controller.go:332-358 | that of a claim some Machine carries records this Machine and changes none |
| ClaimOutcome.ConflictTriesNext | internal/controller/machineclaim_controller.go:400-409 | whatever happened since the candidates were read, those in conflict are passed over and the first that is as it was read is bound |
| ClaimOutcome.AllConflictsPend | internal/controller/machineclaim_controller.go:400-410 | when all candidates conflict the claim is recorded Pending and no Machine changes |
| ClaimOutcome.FinalizerIsAdded | internal/controller/machineclaim_controller.go:80-86 | an undisturbed reconcile of a new claim adds the finalizer and does nothing else |
| ClaimOutcome.FinishedIsLeftAlone | internal/controller/machineclaim_controller.go:97-99 | one of a deleted claim without the finalizer changes nothing |
| ClaimOutcome.FailedCallEnds | internal/controller/machineclaim_controller.go:479-506 | a patch or bind of a Machine that is gone, and a write of a claim that changed since it was read, end the reconcile and change nothing |
| ClaimOutcome.DeletionReleases | internal/controller/machineclaim_controller.go:96-116 | an undisturbed reconcile of a deleted claim takes its reference off every carrier, changes no other Machine or claim, and removes the finalizer, and with it the claim unless another finalizer holds it |
| ClaimOutcome.DeletionEnds | internal/controller/machineclaim_controller.go:96-116 | and it always reaches its end |
| ClaimOutcome.StaysBoundIff | internal/controller/machineclaim_controller.go:215-250 | an undisturbed reconcile leaves a Bound claim Bound, to the same Machine, exactly when that Machine still carries its key and UID, and otherwise Pending with no Machine recorded; no Machine and no other claim changes |
| ClaimOutcome.RecheckEnds | internal/controller/machineclaim_controller.go:215-229 | and it always reaches its end |
| ClaimOutcome.OrphansAreCleared | internal/controller/machineclaim_controller.go:179-197 | an undisturbed reconcile of a key without a claim leaves no Machine of the namespace with a reference naming that key, whatever its UID, and changes no other Machine and no claim |
| ClaimOutcome.ClearingEnds | internal/controller/machineclaim_controller.go:179-197 | and it always reaches its end |
| ClaimBinding.FindBound | internal/controller/machineclaim_controller.go:124-150 | a result carries the claim's key and UID in its namespace; none with no recorded name means no Machine of the namespace does |
| ClaimBinding.StepKeeps | internal/controller/machineclaim_controller.go:67-89 | every API call of every reconcile, every crash and every step of the environment keeps the binding invariant |
| Seeder.DeletedOnlyAfterGrace | internal/controller/image_seeder.go:379-398 | a Deployment's deletion starts only in a reconcile without demand, if an earlier one stamped it empty, no completed reconcile since saw demand, and more than the grace period less one second has passed |
| Seeder.DeletedByDeadline | internal/controller/image_seeder.go:379-398 | with demand absent and nobody interfering, a reconcile at or after stamp plus grace whose delete call succeeds leaves the Deployment being deleted, until it is gone |
| Seeder.AskedByDeadline | internal/controller/image_seeder.go:390-396 | whether or not the call succeeds, deletion has been asked for by the first such reconcile |
| Seeder.AskedOnlyAfterGrace | internal/controller/image_seeder.go:390-396 | and it is asked for only after the grace period, like the deletion itself |
| Seeder.TerminatingStays | internal/controller/image_seeder.go:158-163 | a Deployment being deleted is left alone until it is gone |
| Seeder.DemandOutcome | internal/controller/image_seeder.go:182-197 | a reconcile with demand fails exactly when a call it needs fails; completed, it leaves no countdown and an unready mark exactly when no replica is available, kept since it was set |
| Seeder.CreatedOnDemand | internal/controller/image_seeder.go:165-180 | a Deployment appears exactly in a reconcile that sees demand without one, with seeding configured and the create call succeeding |
| Seeder.RequeueMeetsDeadline | internal/controller/image_seeder.go:129-147 | merged with whatever other Sites ask for, a Site asks to be called back when its countdown is over, less at most a second, and the reconcile does so no later than that countdown's stamp plus grace if and only if no Site fails and the condition is recorded; otherwise the delay is dropped |
| Seeder.StampHasOrigin | internal/controller/image_seeder.go:309-319 | a readable stamp was written by some reconcile of the history, with no completed reconcile on demand since |
| Seeder.StampStays | internal/controller/image_seeder.go:281-305 | while demand is absent and nobody interferes, the stamp is neither moved nor lost |
| Seeder.FormatTruncates | internal/controller/image_seeder.go:300-300 | a stamp reads back as at most one second earlier, never later |
| Seeder.MergeResults | internal/controller/image_seeder.go:126-147 | fails exactly when a Site or the condition update fails, otherwise asks for the smallest positive delay any Site asked for |
| Seeder.EarliestIsUnique | internal/controller/image_seeder.go:404-415 | that delay does not depend on the order the Sites are visited in |
| Seeder.SeederDeployment.StampEmptySince | internal/controller/image_seeder.go:295-305 | an accepted patch writes the truncated time and nothing else, a refused one leaves the object alone |
| Seeder.SeederDeployment.CancelShutdown | internal/controller/image_seeder.go:309-319 | succeeds without a call when there is no stamp, and otherwise removes just the stamp |
| Seeder.SeederDeployment.CheckUnready | internal/controller/image_seeder.go:326-342 | marks or unmarks readiness without touching the countdown |
| Seeder.SeederDeployment.Shutdown | internal/controller/image_seeder.go:379-398 | takes the step of the grace-period machine the deadline theorems are about |
| Seeder.SeederDeployment.ReconcileExisting | internal/controller/image_seeder.go:154-206 | takes the Site step the deadline theorems are about, failed calls included |
| Progress.DeployRun.ApplyProgress | internal/agentserver/progress.go:92-113 | changes the status in place to the fold's next value, which the lemmas below describe over whole histories |
| Progress.DeployRun.EnterPhase | internal/agentserver/progress.go:145-155 | changes phase and timings only, to the fold's next values |
| Progress.DeployRun.CloseCurrentPhaseTiming | internal/agentserver/progress.go:160-168 | closes the last timing if it is open and touches nothing else |
| Progress.DeployRun.ApplyPartitionProgress | internal/agentserver/progress.go:122-137 | changes the partition list only, to the list of upserts |
| Progress.DeployRun.SetSucceededCondition | internal/agentserver/progress.go:171-179 | sets the condition and the generation it observes, moving its transition time only when its status changes |
| Progress.PartitionsSummarizeReports | internal/agentserver/progress.go:122-137 | after any reports the list has one entry per reported number, ordered by first report, holding the last reported values |
| Progress.NumbersAreUnique | internal/agentserver/progress.go:115-121 | no partition number is listed twice |
| Progress.TimingsGrow | internal/agentserver/progress.go:145-168 | after any reports only the last timing can be open, the phase is Failed or the last timing's, and a timing closed after any prefix never changes |
| Progress.TimingsInOrder | internal/agentserver/progress.go:145-168 | with non-decreasing timestamps the timings do not overlap and none ends before it starts |
| Progress.ConditionTellsConclusion | internal/agentserver/progress.go:102-112 | after any reports the Succeeded condition is present exactly when some report concluded the run; it is True exactly when the last such report succeeded with step Succeeded, has its reason, message and generation, and dates from the first of the unbroken stretch of equal outcomes |
| Progress.LastReportShows | internal/agentserver/progress.go:92-113 | the last report's receipt time and its step, or Failed, show in the status |
| Progress.RepeatIsNoOp | internal/agentserver/progress.go:139-144 | a running or succeeded report delivered twice is one delivered once, apart from lastProgressAt and the generation a condition it sets observes |
| Progress.RepeatedFailure | internal/agentserver/progress.go:108-112 | a failed report delivered twice keeps phase, partitions and condition and adds one closed timing unless its step is Failed |
| Progress.UpsertAllTwice | internal/agentserver/progress.go:129-135 | upserting a report's partitions a second time changes nothing |
| RunGC.RunsToGC | internal/controller/deployrun_controller.go:128-157 | for distinct names the result is exactly the runs that are beyond the newest retain, unprotected and old enough, each once, newest first |
| RunGC.PicksExactlyVictims | internal/controller/deployrun_controller.go:133-157 | choosing by position in the sorted copy is choosing by the number of newer runs |
| RunGC.ProtectedRunNames | internal/controller/deployrun_controller.go:159-171 | exactly the runs the Machine's three references name are protected |
| RunGC.NeverCollected | internal/controller/deployrun_controller.go:120-127 | one of the newest retain, a protected or a young run always survives |
| RunGC.NewestAreKept | internal/controller/deployrun_controller.go:133-147 | a run with fewer than retain others created at or after it is never picked |
| RunGC.OldestArePicked | internal/controller/deployrun_controller.go:133-154 | one with at least retain others created after it is picked, if it is unprotected and old enough |
| RunGC.SecondPassIsEmpty | internal/controller/deployrun_controller.go:128-157 | the survivors of a pass all survive another |
| RunGC.RerunPicksNothing | internal/controller/deployrun_controller.go:128-157 | the code given the survivors, in any order, picks nothing |
| RunGC.LaterCollectsMore | internal/controller/deployrun_controller.go:151-153 | a later clock only collects more |
| RunGC.SurvivorsAreBounded | internal/controller/deployrun_controller.go:120-127 | at most retain survivors are neither protected nor young |
| LeaseRange.DerivesHostsIff | internal/bootd/render.go:308-316 | for every prefix length the derived range is exactly the network's host addresses, refused when there are none, if and only if the prefix is not 32; prefix 31 is the only one refused |
| LeaseRange.HostsLieBetween | internal/bootd/render.go:308-316 | the mask and complement arithmetic means the addresses strictly between the block's ends |
| LeaseRange.AutoRange | internal/bootd/render.go:308-316 | the bytes handed on denote the derived bounds, and a refused network yields an error |
| LeaseRange.ExplicitRange | internal/bootd/render.go:293-306 | explicit bounds are accepted exactly when both are IPv4 addresses, and then taken unchanged; otherwise the error names what is wrong, one bound missing before a bad start before a bad end |
| LeaseRange.IntToIPv4 | internal/bootd/render.go:337-341 | the four bytes read back as the number, so no address is lost |
| CommandLine.CmdlineRoundTrip | internal/agent/cmdline.go:51-74 | for whitespace-free inputs the agent reads back the trimmed agent URL and the token, or no token when none was printed, whatever the consoles |
| CommandLine.FieldsOfCmdline | internal/bootserver/grub.go:197-201 | the printed line, field by field: kernel, live boot, the URL to fetch, agent URL, token if any, consoles in order |
| CommandLine.LineEndIgnored | internal/agent/cmdline.go:51-61 | the newline that ends the line, and other ASCII white space there, does not change what is parsed |
| CommandLine.LastOccurrenceWins | internal/agent/cmdline.go:57-72 | of any fields, the last of the form key=value decides that key's value |
| CommandLine.NoKeyNoValue | internal/agent/cmdline.go:53-65 | fields of other keys, and fields without an equals sign, are ignored |
| CommandLine.LinuxArguments | internal/bootserver/grub.go:179-202 | the printed arguments are the words the round trip is about |
| CommandLine.ConsoleCmdlineArgs | internal/bootserver/grub.go:151-158 | one spaced console word per entry, in order |
| CommandLine.ParseCmdline | internal/agent/cmdline.go:59-74 | the loop computes the parse the round trip is about, the last occurrence of a key winning |
| CommandLine.FieldsOfSpaced | internal/agent/cmdline.go:61-61 | splitting spaced words gives back the words |

## Left out

- HTTP servers, clients and proxies, token minting and storage, exec wrappers, environment parsing and capabilities: input and output, or calls into code outside the repository.
- Building Deployments, Jobs, volumes and Server-Side Apply bodies, the status walks of Image, ImageImport and PartitionContent, and ingest scratch sizing: records and short dispatch without a hard property.
- The Machine reconciler, deployer, plan builder and DHCP reservation allocator are not part of this model.
- Lease-file parsing and filtering (internal/bootd/leaserelease.go from line 65 on): easy members; the model ends where a MAC is handed to releaseLeases.
- In the step system a Subnet push may carry any revision and any table at any time, which includes every push SubnetDhcp.dfy describes; a Subnet cache without a sink is left out.
- The hostsfile loop and the claim controller are step systems over values, because their properties are about interleavings; update in place and aliasing are modelled only for the critical sections in Supervisor.dfy, SubnetDhcp.dfy and MacCache.dfy.
- A child's read and the noting of its log line are one step; a log line delayed past a later write could otherwise confirm too early. A child may read at any time after launch, with or without a signal.
- Whether the applied revision eventually catches up is not claimed: the last reported revision is set before the callback, and a failed status patch is only logged. What a quiet state has recorded is in BootdAck.dfy.
- How soon a reconcile that returns an error is called again is left to the workqueue's backoff.
- The claim controller reads are linearizable and at most one reconcile per claim key is under way; the environment never writes a claimRef or a claim's status, but may remove a reference, strip a finalizer, and create, change or delete Machines and claims at any moment.
- Selector matching in the step system: a list of candidates is any sequence of free, Available Machines of the namespace, which includes the sorted matching ones; hardware matching itself is in DiskMatch.dfy.
- mirrorMachineStatus: only its versioned write is modelled, not the mirrored fields; conditions and events of the claim are left out.
- Seeder.DeletedOnlyAfterGrace: years outside 0 to 9999 in RFC 3339 (section 5.6) and the saturation of Go durations are not modelled.
- RunGC.RunsToGC: for equal names the order sort.Slice leaves is unspecified; names are unique within a namespace.
- CommandLine.CmdlineRoundTrip: the kernel path and squashfs URL are taken as already resolved; that a GRUB network path begins with a parenthesis is its only assumed property.
- Supervisor.Dnsmasq.SetReservations: composes its two sections with nothing between them; the step system in Bootd.dfy interleaves them, one SubnetMember query at a time.
- resolveConsole, prefixLen, formatDNSMasqDuration and the rest of the dnsmasq configuration: short expressions with easy bounds.
