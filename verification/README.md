# A model of sealant-capture

`sealant-capture` is the engine of sealantd that saves a workspace while it is being worked on. It
snaps two classes of files (a small one with the git repository, a bulk one with dependency trees),
stages each snap as a capture in a hash chain, ships the captures in order to a registrar that accepts
a capture only on its chain head, and seals the chain when an executor ends. This project models that
engine in Dafny and proves what it keeps over whole runs. Where the code does not keep a property, the
project holds an input that shows it and the exact condition under which the code does.

`dafny verify dfyconfig.toml` checks everything.

## How the model is laid out

- `Captures`, `Chain`: manifests, the staging queue, the shipper and the registrar as a state machine.
  A step is one critical section of the engine, the shipper or the registrar, so a run is any
  interleaving, restarts included.
- `ChainSafety`: the queue stays a chain on the registrar's head, and when a register can conflict.
- `ChainRegisters`: whatever is hoisted, coalesced or folded, the newest capture reads as two registers.
- `Coherence`: what every thread keeps of the queue whatever the shipper is answered, and when the newest
  capture of a drained queue is the registered head.
- `Engine`: the staging methods themselves, over objects, proved against the state machine.
- `Restage`: the journal that makes a queue change one step through any number of crashes.
- `RepairRaces`: a repair of two classes with a shipper between them, and one interrupted in its restage.
- `Named`, `Store`, `StoreRuns`: what captures name; every pack one may name is stored or listed for upload,
  and which condemned keys stay gone, with bulk builds that yield and resume across repairs.
- `ClassBuild`: a class read, packed and committed; it gives `Store` and `BuildMemory` what they take of a build.
- `BuildMemory`: when a class built again over a still disk is the very same section.
- `FlushWorld`, `FinalFlush`: the rounds and seals of a final flush beside other threads, which write, watch,
  ship, repair, stage and count; what "complete" means, and what a flush asked again leaves.
- `FlushRuns`: runs of that whole world from an opened engine.
- `Git`: incremental packs over an abstract object graph.
- `Cadence`: class clocks, signals and the class loop's condition variable.
- `Reading`: the stat cache under concurrent writers, yielding and resuming builds.
- `Carry`, `Tree`, `TreeBuild`: carried paths, dir objects, hardlink groups, and the flattened tree.
- `PackFile`, `Packs`: the pack container down to its bytes, and the builder that rotates packs.
- `ReadAhead`: the read-ahead slots and the packing of a large file's parts.
- `LongPath`: opening long paths in runs, and the stack walk.
- `CivilDate`, `Position`, `Keys`: timestamps, evidence order, object keys. `Text` holds what they share.

A capture id is the manifest it hashes (the hash is injective); so is a dir object's key. Chunk cuts are
a partition, compression has an inverse. Disks, other writers, clocks, preemption and failures are
arbitrary: fields and values chosen freely inside what the text around them allows.

## What does not hold, and exactly when it does

- A register whose answer is lost, after which the shipper lets go (or the daemon restarts between the
  register and its ack), leaves a registered capture queued; the next automatic snap coalesces with it
  and the chain conflicts. `ChainSafety.LostAnswerConflicts` is such a run. `StepKeepsInvariant` says
  exactly which steps break the chain: the ones that take the place of a capture the registrar holds or
  the shipper is registering.
- Between the two class rebuilds of one repair the shipper may take up the first. Acked, the second conflicts
  (`RepairRaces.ShippedRebuildConflicts`); registered and not acked, the ack removes the second, and the next
  capture conflicts (`RepairRaces.LostRebuildConflicts`).
- `follow_restage` follows the journal of a hoist and not that of a repair, which writes one entry.
  `Restage.InterruptedRepairIsNotFollowed` says exactly when that is right; otherwise the chain conflicts
  (`RepairRaces.InterruptedRepairConflicts`, `RepairRaces.InterruptionIsReached`).
- An unchanged snap drops its uploads by file name: a pack of the same bytes under an older key stays in
  the chunk map under the newer key and nothing lists that key (`StoreRuns.UnlistedKeyIsReached`).
  `Store.SnapKeepsFindable` holds exactly when the keys agree, as they do within one key generation.
- A bulk build that yielded keeps its packs through a repair of the small class. When a small capture listed the
  same pack and the refusal named it, the resumed build uploads and names the condemned key again
  (`StoreRuns.RevivalIsReached`, `Store.ResumedBuildNamesIt`). `Store.StepKeepsClean` says exactly when.
- A final flush says complete over a newest capture that is neither sealed nor registered when another thread
  stages between its last look at the seal and its question to the registrar (`FlushRuns.IntrusionIsReached`).
  `FinalFlush.CadenceRunner.FlushFinalSealing` says it is sealed, registered and recorded exactly when none
  staged since everything was found shipped.
- "Complete means current" holds for watched classes only. A class that polls sends no signal: a process that
  writes it after its final snap and exits before the census goes unseen (`FlushRuns.StragglerIsReached`).
  `FlushWorld.SettledAccounts`: every write since the final snaps began went unseen, and there was none if every
  class was watched; `FlushWorld.StragglerGoesUnseen` says exactly which unseen write leaves the capture current.
- The count `chain_sealed` compares is read after the engine is let go of. A turn staged and counted between the
  flush's final capture and that read is taken for the flush's own, and a flush asked next completes, without an
  executor, over a chain that ends in a turn (`FinalFlush.CadenceRunner.CountedIntruder`, from a state
  `FlushRuns.TurnAfterFlushIsReached` reaches). When a chain is taken for ended, other threads staged nothing
  over its end exactly if the count noted, with what is still to count, is the one to expect
  (`FinalFlush.CadenceRunner.FlushFinalSealing`, `EndedOn`); `FlushWorld.IntruderEndsFinal` says which capture staged
  over it leaves it ending in a final one all the same.
- Without an executor a flush may complete over a newest capture no one registered, when the shipper's ack took a
  rebuilt class off the queue (`RepairRaces.LostRebuildIsReached`). `Coherence.ShipperGrounds` says exactly which
  ack does; with an executor the seal over it conflicts (`RepairRaces.AstraySealConflicts`).
- A final flush asked again over a still disk stages once more when a repair of the other class moved the key
  prefix on (`FlushRuns.MovedPrefixIsReached`), or a resumed bulk build moved packs the small class names
  (`FlushRuns.MovedPacksAreReached`). Every final snap stages nothing exactly when the class is remembered as the
  newest capture names it (`FlushWorld.ResnapStagesNothing`). A flush that trusts the watcher takes no snap, and
  leaves a sealed chain as it was in either case (`FinalFlush.CadenceRunner.FlushFinalSealing`).
- A path carried because it could not be read loses its racy mark. `Reading.DroppedMarkIsSafe`: safe on
  every disk exactly when it had no mark.
- Carrying a file whose nearest listed ancestor is no directory leaves stand-in directories hanging under that
  file, and dir objects nothing refers to. `Carry.CarryKeepsClosed` and `Carry.CarriedAllStaysClosed` say exactly
  when; a stale index entry is enough (`Carry.StaleEntryHangs`).
- A change signalled while a snap runs is forgotten exactly when a due snap is then declined
  (`Cadence.StepRemembers`); a poll asked for at once is put off by the end of a snap under way, with the
  exact exceptions (`Cadence.EndedSnapPutsOffPoll`).

## Model

| member | source | states |
|---|---|---|
| `Captures.BulkAnswerKeepsEverySection` | crates/sealant-capture/src/manifest.rs:487-517 | reading a capture under the registrar's bulk answer keeps every platform's section, and the answer becomes this platform's exactly when the capture holds it |
| `Captures.BulkCaptureKeepsOtherPlatforms` | crates/sealant-capture/src/manifest.rs:519-530 | a bulk capture replaces its own platform's section and keeps every other |
| `Chain.Position` | crates/sealant-capture/src/engine.rs:2147-2154 | the first queued capture a repair asks for, or none |
| `Chain.IndexAt` | crates/sealant-capture/src/engine.rs:3265-3290 | the first queued capture at or above a chain position |
| `ChainSafety.CutAndPlace` | crates/sealant-capture/src/engine.rs:3163-3171 | a capture staged in the place of the lowest it replaces keeps the chain on the head if and only if no held capture lost its place |
| `ChainSafety.SnapKeepsInvariant` | crates/sealant-capture/src/engine.rs:3081-3330 | append, coalesce, hoist and hoist with coalesce keep the chain if and only if they take no held capture's place |
| `ChainSafety.SealKeepsInvariant` | crates/sealant-capture/src/engine.rs:3487-3547 | a seal keeps the chain |
| `ChainSafety.RepairKeepsInvariant` | crates/sealant-capture/src/engine.rs:2278-2310 | a class rebuild keeps the chain if and only if the capture it replaces is still the engine's to replace |
| `ChainSafety.RegisterKeepsInvariant` | crates/sealant-capture/src/registrar.rs:1631-1690 | what the shipper claimed is registrable, whatever becomes of the answer, and no register conflicts |
| `ChainSafety.AckKeepsInvariant` | crates/sealant-capture/src/ship.rs:876-898 | taking a registered capture off the queue keeps the chain |
| `ChainSafety.RequestKeepsInvariant` | crates/sealant-capture/src/ship.rs:722-829 | claims, releases and repair requests keep the chain |
| `ChainSafety.RestartKeepsInvariant` | crates/sealant-capture/src/engine.rs:1249-1297 | a restart over the same staging directory keeps the chain |
| `ChainSafety.StepKeepsInvariant` | crates/sealant-capture/src/engine.rs:3081-3330 | every step keeps the chain if and only if it takes no held capture's place, and no step conflicts before one does |
| `ChainSafety.RunsAreSafe` | crates/sealant-capture/src/engine.rs:2313-2412 | over every interleaving in which no held capture loses its place: consecutive positions, each parent the capture before, the first on the registered head, no conflict |
| `ChainSafety.GuardedSnap` | crates/sealant-capture/src/ship.rs:831-873 | with registered captures in the shipper's hands, coalescing and hoisting never reach one |
| `ChainSafety.GuardedRepair` | crates/sealant-capture/src/engine.rs:2278-2310 | a class rebuild never reaches one either |
| `ChainSafety.GuardedRegister` | crates/sealant-capture/src/ship.rs:2082-2311 | an answered register leaves the registered capture in the shipper's hands |
| `ChainSafety.GuardedAck` | crates/sealant-capture/src/ship.rs:876-898 | after an ack the next queued capture is not registered, and a capture being repaired is still queued |
| `ChainSafety.GuardedBegin` | crates/sealant-capture/src/engine.rs:2139-2155 | a repair starts only on a queued capture the registrar does not hold |
| `ChainSafety.GuardedRestart` | crates/sealant-capture/src/engine.rs:1249-1297 | a restart with no registered capture still queued leaves none at risk |
| `ChainSafety.DisciplinedRunsNeverConflict` | crates/sealant-capture/src/engine.rs:3081-3330 | no run in which every answer reaches the shipper before it lets go, nothing is claimed inside a repair and no restart falls between register and ack ever conflicts |
| `ChainSafety.SupersededHeadConflicts` | crates/sealant-capture/src/ship.rs:831-844 | a snap in the registered head's place is refused at its own register |
| `ChainSafety.SupersededRepairConflicts` | crates/sealant-capture/src/engine.rs:2278-2310 | a class rebuild whose capture the shipper registered meanwhile is refused at its own register, whatever repair is still asked for |
| `ChainSafety.LostAnswerConflicts` | crates/sealant-capture/src/ship.rs:2082-2311 | a run from an empty chain that conflicts: a lost answer, a release, a coalescing snap |
| `RepairRaces.RebuildUnderRegisterIsLost` | crates/sealant-capture/src/ship.rs:876-898 | a class rebuilt while the capture it replaces is registered and not acked is removed by that ack, and the engine then follows a capture no one will register |
| `RepairRaces.AstrayConflicts` | crates/sealant-capture/src/engine.rs:3163-3171 | whatever such an engine stages next is refused as a wrong parent |
| `RepairRaces.AstraySealConflicts` | crates/sealant-capture/src/cadence.rs:1443-1466 | so is a seal, so a flush with an executor does not complete over such an engine |
| `RepairRaces.LostRebuildIsReached` | crates/sealant-capture/src/engine.rs:2278-2310 | a run from an empty chain, every answer heard, that leaves the engine there with nothing queued |
| `RepairRaces.LostRebuildConflicts` | crates/sealant-capture/src/engine.rs:2278-2310 | and the next turn's capture then conflicts |
| `RepairRaces.ShippedRebuildConflicts` | crates/sealant-capture/src/engine.rs:2278-2310 | runs from an empty chain in which the first rebuilt class is registered and acked before the second is staged, and the second conflicts |
| `ChainRegisters.StepRefinesRegisters` | crates/sealant-capture/src/engine.rs:2972-2981 | each step of the chain is one step of two registers, one per class |
| `ChainRegisters.SnapRefinesRegisters` | crates/sealant-capture/src/engine.rs:3094-3106 | a snap, hoisted or not, overwrites its own class in the newest capture and nothing else |
| `ChainRegisters.RunRefinesRegisters` | crates/sealant-capture/src/engine.rs:2359-2374 | over every run of one process the newest capture's sections are the two registers' |
| `ChainRegisters.NewestHoldsLatestBuilds` | crates/sealant-capture/src/engine.rs:3057-3077 | from any state, an empty chain included, the newest capture holds exactly the latest small build and the latest bulk build, and what was there before where a class was not built |
| `ChainRegisters.OtherPlatformsSurvive` | crates/sealant-capture/src/manifest.rs:519-530 | every other platform's bulk section survives every run, repairs and restarts included, in every capture that can register |
| `Coherence.ShipperCoheres` | crates/sealant-capture/src/ship.rs:2082-2311 | whatever is answered, lost or refused, a step of the shipper or the registrar keeps the queue a chain that ends in the engine's newest capture, and changes neither that capture nor an empty queue and the head under it |
| `Coherence.SnapCoheres` | crates/sealant-capture/src/engine.rs:3081-3330 | so does a snap; the newest capture then holds its build, the other class as it was, and no seal if it staged |
| `Coherence.RebuildCoheres` | crates/sealant-capture/src/engine.rs:2278-2310 | so does a class rebuilt, whether or not the shipper took up the one rebuilt before it; it is final when what it replaces is |
| `Coherence.RunsStayCoherent` | crates/sealant-capture/src/engine.rs:2278-2310 | over every run of one process, lost answers and conflicts included, the queue is a chain that ends in the newest capture |
| `Coherence.ShipperGrounds` | crates/sealant-capture/src/ship.rs:876-898 | with nothing left queued the newest capture is the registered head; a shipper's step keeps that if and only if it is no ack that takes the last capture queued and that one is not the registered one |
| `Coherence.DisciplinedIsGrounded` | crates/sealant-capture/src/cadence.rs:1498-1539 | it is so in every state a disciplined run keeps |
| `Engine.Staging.CoalescibleBelow` | crates/sealant-capture/src/ship.rs:846-863 | the capture just under the newest, when it is a small automatic one and not claimed |
| `Engine.Filter` | crates/sealant-capture/src/engine.rs:3212-3218 | the keys kept, in order |
| `Engine.PushNew` | crates/sealant-capture/src/engine.rs:3220-3224 | the keys added, each listed once |
| `Engine.CaptureEngine.HoistTarget` | crates/sealant-capture/src/engine.rs:2313-2326 | the bulk capture a small snap is staged ahead of, exactly when the model hoists |
| `Engine.CaptureEngine.Compare` | crates/sealant-capture/src/engine.rs:3094-3146 | a snap stages nothing exactly when its sections are those of the capture it follows and its kind allows it |
| `Engine.CaptureEngine.StageSnap` | crates/sealant-capture/src/engine.rs:3081-3331 | the whole new state of a snap: queue, previous capture, what the bulk capture stands on |
| `Engine.CaptureEngine.Place` | crates/sealant-capture/src/engine.rs:3248-3330 | how the entry reaches the queue: appended, in a coalesced capture's place, or under the bulk capture |
| `Engine.CaptureEngine.CoalesceTarget` | crates/sealant-capture/src/engine.rs:3152-3162 | the capture a snap coalesces with, exactly when the model coalesces |
| `Engine.CaptureEngine.MakeEntry` | crates/sealant-capture/src/engine.rs:3163-3247 | the entry staged: its place, its parent, what it keeps of the capture it replaces, its own uploads once each |
| `Engine.CaptureEngine.StageOverPrevious` | crates/sealant-capture/src/engine.rs:3487-3547 | a final capture over the newest one, with its sections |
| `Engine.CaptureEngine.SealFinal` | crates/sealant-capture/src/engine.rs:3386-3394 | a chain that ends on a final capture is left as it is |
| `Engine.CaptureEngine.SealComplete` | crates/sealant-capture/src/engine.rs:3459-3484 | the newest capture then carries this executor's seal, staged at most once |
| `Engine.CaptureEngine.FoldUploads` | crates/sealant-capture/src/engine.rs:3189-3204 | what a repair keeps of the captures it folds: no manifest, no condemned key |
| `Engine.CaptureEngine.FoldKind` | crates/sealant-capture/src/engine.rs:2256-2262 | a rebuilt capture is final when one it replaces is, and takes the latest observation among them |
| `Engine.CaptureEngine.StageRepair` | crates/sealant-capture/src/engine.rs:3265-3290 | the whole new state of a class rebuild |
| `Restage.QueueDir.Restage` | crates/sealant-capture/src/ship.rs:405-419 | interrupted anywhere, the queue is untouched and uncommitted, or committed and on its way |
| `Restage.QueueDir.Recover` | crates/sealant-capture/src/ship.rs:427-446 | finishing a committed journal again leads to the same queue |
| `Restage.QueueDir.Apply` | crates/sealant-capture/src/ship.rs:451-481 | cut short anywhere, the sweep included, applying the journal again leads to the same target; run to its end, nothing of a superseded capture is left but what a queued one lists |
| `Restage.QueueDir.WriteFiles` | crates/sealant-capture/src/ship.rs:452-458 | every entry of the journal written, or the rest left as it was |
| `Restage.QueueDir.RemoveFiles` | crates/sealant-capture/src/ship.rs:459-468 | every superseded entry removed unless a written one took its position |
| `Restage.QueueDir.Sweep` | crates/sealant-capture/src/ship.rs:900-922 | of a superseded capture's object files only those no queued entry lists are removed, wherever it is cut short, and all of them when it is not |
| `Restage.QueueDir.SweepAll` | crates/sealant-capture/src/ship.rs:471-473 | every superseded capture swept, or cut short with every queued one's objects still there |
| `Restage.QueueDir.RestageThroughCrashes` | crates/sealant-capture/src/ship.rs:405-481 | through any number of crashes: the queue as it was, or exactly the queue the journal makes, with every listed object on disk and the superseded ones swept |
| `Restage.RestageIsCutAndPlace` | crates/sealant-capture/src/ship.rs:451-481 | the files a restage leaves are the chain cut and staged over |
| `Restage.InterruptedHoistIsFollowed` | crates/sealant-capture/src/engine.rs:2328-2347 | after an interrupted hoist the engine's newest capture is the moved bulk capture |
| `Restage.InterruptedRepairIsNotFollowed` | crates/sealant-capture/src/engine.rs:2328-2347 | after an interrupted repair the engine follows the capture it had staged last: right if and only if the capture refused was the newest one and was rebuilt into that very manifest |
| `RepairRaces.InterruptedRepairConflicts` | crates/sealant-capture/src/engine.rs:3271-3286 | when it is not followed: the request is dropped, the next turn is staged on the superseded capture, and once the rebuilt one is registered its register conflicts |
| `RepairRaces.InterruptionIsReached` | crates/sealant-capture/src/engine.rs:3271-3286 | runs from an empty chain in which that happens |
| `Named.SnapSound` | crates/sealant-capture/src/engine.rs:2565-2597 | a snap of sound sections over sound captures leaves every capture with git packs in its git section only and no key of a generation to come |
| `Named.RestartSound` | crates/sealant-capture/src/engine.rs:1249-1297 | so does a restart, whatever bulk answer it reads the head under |
| `Store.SnapListsPacks` | crates/sealant-capture/src/engine.rs:3205-3229 | a snap that stages loses no listed pack and lists its own uploads |
| `Store.SnapKeepsFindable` | crates/sealant-capture/src/engine.rs:3121-3146 | every located pack stays stored or listed if and only if, on a snap that finds nothing new, each pack it packed whose file the queue lists is listed or stored under its own key |
| `Store.OneGenerationAgrees` | crates/sealant-capture/src/engine.rs:3121-3146 | that is so as long as the queue lists nothing of an earlier key generation |
| `StoreRuns.FreshHolds` | crates/sealant-capture/src/engine.rs:1030-1090 | an engine just opened is where every such run may start |
| `StoreRuns.UnlistedKeyIsReached` | crates/sealant-capture/src/engine.rs:3121-3146 | a run from an opened engine after which it is not: a repair fails, and a bulk snap that finds nothing new keeps a chunk under a key nothing lists |
| `Store.RebuildKeepsFindable` | crates/sealant-capture/src/engine.rs:3189-3204 | a class rebuild keeps every located pack stored or listed |
| `Store.NamedIsFindable` | crates/sealant-capture/src/engine.rs:1970-1977 | every pack a staged capture's own section names is in the store or listed by a queued capture |
| `Store.LocationsStayFindable` | crates/sealant-capture/src/engine.rs:1938-1977 | over every disciplined run, bulk builds that yield before a repair and resume after it included, every pack the chunk and dir maps name is in the store or listed by a queued capture |
| `Store.RebuiltNamesNoCondemnedKey` | crates/sealant-capture/src/engine.rs:2209-2305 | a rebuilt capture uploads no key its refusal named, and the class rebuilt names none, its git packs included |
| `Store.RepairedNamesNoCondemnedKey` | crates/sealant-capture/src/engine.rs:2278-2305 | once every class of the plan is rebuilt, whatever ran between them, the newest capture names no key the refusal named, in any class |
| `Store.PlanForgets` | crates/sealant-capture/src/engine.rs:2156-2253 | a repair rebuilds some class, forgets only keys written so far, and the git packs it forgets are the ones the next small build lists no more |
| `Store.StepKeepsClean` | crates/sealant-capture/src/engine.rs:2209-2254 | no located pack is one any refusal named; a step keeps that if and only if it is no repair of the small class alone that forgets a pack a bulk build which yielded holds |
| `Store.RunsStayClean` | crates/sealant-capture/src/engine.rs:2209-2254 | so over every run without one |
| `Store.ResumedBuildNamesIt` | crates/sealant-capture/src/engine.rs:1851-1860 | after one, the bulk build resumed puts the chunk back under the condemned key and uploads it again |
| `StoreRuns.RevivalIsReached` | crates/sealant-capture/src/engine.rs:2251-2253 | a run from an opened engine that leads to one |
| `Store.RebuiltNamesEarlierGit` | crates/sealant-capture/src/engine.rs:2565-2572 | without one, a rebuilt class names a key an earlier refusal named if and only if it is a git pack the newest section lists and this repair does not replace |
| `ClassBuild.PackDirs` | crates/sealant-capture/src/engine.rs:2048-2108 | every dir object of the tree is in a pack the section lists that holds it, known or new; all known in at most sixteen packs, nothing is packed; more are listed only as one build's own new packs are |
| `ClassBuild.ClassBuilder.ReadClass` | crates/sealant-capture/src/engine.rs:1846-1960 | everything an attempt names is located in a pack that holds it, but for what unreadable paths still name; what earlier attempts packed stays where it was |
| `ClassBuild.ClassBuilder.BuildClass` | crates/sealant-capture/src/engine.rs:1827-1977 | committed, the chunk map is what was known, what was carried and what was packed, each chunk in a pack that holds it; everything named is found in the packs needed, but for exactly what unreadable paths name and nothing knows, nothing in a strict build; yielded, nothing is committed and nothing lost |
| `ClassBuild.ClassBuilder.BuildResuming` | crates/sealant-capture/src/engine.rs:1846-1960 | any number of preemptions then completion reads exactly the disk, every chunk in a listed pack that holds it; no more preemptions inside a file than chunks not yet stored; not done only if every attempt was preempted |
| `ClassBuild.BuildSection` | crates/sealant-capture/src/engine.rs:1827-2024 | what a build names and uploads is what `Store` takes a build to name: packs the maps knew or the build uploads, uploads under the current prefix or an earlier attempt's |
| `ClassBuild.GitSectionFollows` | crates/sealant-capture/src/engine.rs:2565-2597 | and so for its git section: the packs of the capture before, less those to repair, and its own |
| `BuildMemory.GitSnapBuilds` | crates/sealant-capture/src/engine.rs:2477-2597 | a git snap lists no new pack when every tip was one before, and makes its tips the next one's |
| `BuildMemory.RebuiltIsTheSame` | crates/sealant-capture/src/engine.rs:3108-3121 | a class remembered as the newest capture names it, built again over a still disk, is that very section, and nothing is packed |
| `BuildMemory.SameExactlyIfRemembered` | crates/sealant-capture/src/engine.rs:3108-3121 | every build of a class over a disk gives the capture's own sections if and only if the engine remembers the class as the capture names it: tips, packs kept, chunk and dir locations, root and prefix |
| `BuildMemory.BuiltIsRemembered` | crates/sealant-capture/src/engine.rs:1968-1977 | a build leaves its class remembered if and only if its dir objects fill no more packs than a section is meant to list |
| `BuildMemory.SmallKeepsBulk` | crates/sealant-capture/src/engine.rs:1938-1968 | a small build leaves the bulk class remembered |
| `BuildMemory.BulkKeepsSmall` | crates/sealant-capture/src/engine.rs:1938-1968 | a bulk build leaves the small class remembered if and only if, resumed, it moves no pack that names |
| `BuildMemory.MovedPrefixRebuilds` | crates/sealant-capture/src/engine.rs:1843-1847 | a class whose root is a key of another generation is never built into the same section |
| `BuildMemory.MovedPacksRebuild` | crates/sealant-capture/src/engine.rs:1938-1968 | nor is the small class, by any build, once a resumed bulk build moved packs its section lists |
| `FlushWorld.WrittenMoves` | crates/sealant-capture/src/cadence.rs:439-500 | a write of a watched class is signalled, one of another is not, and no write moves the chain or what is remembered |
| `FlushWorld.WriteLeavesCurrent` | crates/sealant-capture/src/cadence.rs:1127-1137 | a write leaves the newest capture current if and only if it leaves that class's root, and the named tips, as they were |
| `FlushWorld.SettledAccounts` | crates/sealant-capture/src/cadence.rs:1170-1183 | no signal since the final snaps began and none on its way: the writes since are exactly the unseen ones, and none if every class was watched as they began |
| `FlushWorld.UnwrittenIsCurrent` | crates/sealant-capture/src/cadence.rs:1145-1168 | nothing written since they began, the newest capture holds the disk, and is remembered so unless that was spoilt |
| `FlushWorld.BaselineStands` | crates/sealant-capture/src/cadence.rs:1162-1196 | what those snaps vouch for stands whatever happens next |
| `FlushWorld.StragglerGoesUnseen` | crates/sealant-capture/src/cadence.rs:644-660 | a write of a class that polls leaves every check of the snaps as it was; the newest capture is current still if and only if the write left the class as it was |
| `FlushWorld.OtherStagedAside` | crates/sealant-capture/src/cadence.rs:1059-1068 | another thread's snap over a chain at rest stages nothing, or the newest capture carries no seal and it has still to be counted |
| `FlushWorld.IntruderEndsFinal` | crates/sealant-capture/src/cadence.rs:1185-1196 | over a final capture, one of another kind leaves the chain ending in a final one if and only if it finds nothing new or goes under the queued bulk capture |
| `FlushWorld.RebuiltMoves` | crates/sealant-capture/src/engine.rs:2139-2310 | a class rebuilt beside the flush, torn by a write or not, with anything shipped since the repair began, holds the class if no one wrote, is final if what it replaces is, and carries no seal |
| `FlushWorld.ResnapStagesNothing` | crates/sealant-capture/src/engine.rs:3108-3146 | over a drained chain that ends in a final capture, every final snap of a class stages nothing if and only if the engine remembers the class as that capture names it |
| `FlushWorld.SealTellsStaging` | crates/sealant-capture/src/engine.rs:3431-3450 | over a drained, sealed chain the newest capture is sealed still if and only if no other thread staged |
| `FinalFlush.CadenceRunner.Read` | crates/sealant-capture/src/engine.rs:1827-1977 | a class read with no write meanwhile is a build of the disk as it is |
| `FinalFlush.CadenceRunner.OtherSnap` | crates/sealant-capture/src/cadence.rs:505-537 | a snap of another thread, torn by writes or not, keeps the chain and moves nothing else of a world at rest; what it stages it counts later |
| `FinalFlush.CadenceRunner.Rebuild` | crates/sealant-capture/src/engine.rs:2139-2310 | a rebuild beside the flush, with writes and shipping between its classes, completed or failed, keeps what the newest capture holds of a disk no one wrote, keeps it final, and leaves a drained chain alone |
| `FinalFlush.CadenceRunner.Meanwhile` | crates/sealant-capture/src/cadence.rs:688-754 | any number of actions of other threads keep the chain, the baseline of the last final snaps, and a chain ended since others last staged ending in a final capture |
| `FinalFlush.CadenceRunner.FinalSnap` | crates/sealant-capture/src/cadence.rs:505-537 | with no write from start to end the newest capture holds the class as it is on disk, and the engine remembers it so unless something spoilt that; a class at rest is left at rest |
| `FinalFlush.CadenceRunner.EndChain` | crates/sealant-capture/src/engine.rs:3386-3394 | a chain that ends on a final capture is left; otherwise one final capture is added that holds what the newest one did |
| `FinalFlush.CadenceRunner.FinalSnaps` | crates/sealant-capture/src/cadence.rs:1230-1341 | a round of snaps leaves a baseline from before its first snap, or, only with every class watched, the last one's; it ends the chain and notes the count, or, only with the count where it was noted, takes it for ended; a chain at rest is left as it is |
| `FinalFlush.CadenceRunner.ShipFinal` | crates/sealant-capture/src/cadence.rs:1498-1539 | done only with nothing left queued; a final capture stays the newest through any repair unless another thread stages over it |
| `FinalFlush.CadenceRunner.SettleWatcher` | crates/sealant-capture/src/cadence.rs:644-660 | settled, every signal raised before is delivered; without a watcher it is settled at once, and there is none |
| `FinalFlush.CadenceRunner.Round` | crates/sealant-capture/src/cadence.rs:1367-1438 | a round that ends the loop without a reason found everything shipped since it began; with the writers stopped, nothing was written since its census, and every write since the last final snaps began went unseen, none at all if they began before this flush |
| `FinalFlush.CadenceRunner.SealNow` | crates/sealant-capture/src/engine.rs:3459-3484 | a seal is staged exactly when there is an executor and the newest capture is not sealed; it holds what the newest capture held and ends the chain |
| `FinalFlush.CadenceRunner.SealComplete` | crates/sealant-capture/src/cadence.rs:1451-1466 | and is counted after the engine is let go of, whatever other threads stage and count between |
| `FinalFlush.CadenceRunner.SealLoop` | crates/sealant-capture/src/cadence.rs:1443-1466 | left without a reason the newest capture was sealed over a chain found all shipped; a sealed chain is left alone |
| `FinalFlush.CadenceRunner.SealStanding` | crates/sealant-capture/src/cadence.rs:1472-1480 | a seal is recorded only for the registered head; it stands only once recorded |
| `FinalFlush.CadenceRunner.AskSeal` | crates/sealant-capture/src/cadence.rs:1472-1480 | unless a reason is given, the newest capture is sealed, registered and recorded if and only if no other thread staged since everything was found shipped, up to the flush's end |
| `FinalFlush.CadenceRunner.FlushFinalSealing` | crates/sealant-capture/src/cadence.rs:1353-1493 | complete, everything was found shipped since it began, and the newest capture is the registered head if no ack strayed; the chain was ended since it began, or taken for ended when other threads had staged exactly what the count, with what was still to count, shows over the expected one; with the writers stopped the writes since its snaps began are the unseen ones, none if they began earlier, and the newest capture is sealed, registered and recorded if and only if no other thread staged since all was shipped; with no other thread staging, nothing unseen and nothing spoilt the chain is at rest, current and sealed; at most three rounds and three seals; whatever it says a sealed, drained chain is left exactly as it was, when it snaps again if that was remembered and no one wrote |
| `FinalFlush.CadenceRunner.FlushTwice` | crates/sealant-capture/src/cadence.rs:1345-1353 | a complete flush asked again, with no write, no other thread staging and nothing spoilt throughout, leaves the newest capture the first left, at rest, current and sealed |
| `FinalFlush.CadenceRunner.CountedIntruder` | crates/sealant-capture/src/cadence.rs:1243-1257 | from every state with a turn to end the chain over: a turn staged and counted before the flush reads the count leaves the chain ending in a turn, and taken for ended, the count one over the expected |
| `FlushRuns.ReachedCoheres` | crates/sealant-capture/src/engine.rs:1030-1090 | whatever an opened engine reaches, with its writers, watcher, shipper, repairs and other threads, is a state a flush may begin in |
| `FlushRuns.MovedPrefixIsReached` | crates/sealant-capture/src/engine.rs:2231-2243 | a run from an opened engine: both classes captured, the small one refused and rebuilt alone, all registered, current and final, and every final snap of the bulk class stages it again |
| `FlushRuns.MovedPacksAreReached` | crates/sealant-capture/src/engine.rs:1851-1860 | a run from an opened engine: a bulk build yields, its chunk is captured with the small class, it resumes; all registered, current and final, and every final snap of the small class stages it again |
| `FlushRuns.StragglerIsReached` | crates/sealant-capture/src/cadence.rs:1127-1137 | a run from an opened engine whose classes poll: every check a flush makes of its snaps passes and the newest capture is not the disk |
| `FlushRuns.IntrudingSnapHidesSeal` | crates/sealant-capture/src/engine.rs:3431-3450 | a turn or checkpoint staged over a drained, sealed chain leaves the newest capture unsealed and unregistered, so the registrar is not asked |
| `FlushRuns.IntrusionIsReached` | crates/sealant-capture/src/cadence.rs:1472-1480 | a run from an opened engine in which that happens between the flush's last look at the seal and its question |
| `FlushRuns.TurnAfterFlushIsReached` | crates/sealant-capture/src/cadence.rs:1236-1242 | a run from an opened engine to a chain a final flush left, the disk as it was, and a turn ended it |
| `Git.NegativesAreHeld` | crates/sealant-capture/src/engine.rs:2477-2488 | the negatives of a pack are tips whose closure the listed packs hold |
| `Git.SnapKeepsClosed` | crates/sealant-capture/src/engine.rs:2565-2703 | a git snap keeps every object its tips reach in some listed pack |
| `Git.ClosureHoldsOverRuns` | crates/sealant-capture/src/engine.rs:2897-2905 | over every run of snaps, failed snaps, unchanged snaps and git repairs, each capture's packs hold its whole closure |
| `Git.CoveredTipsPackNothing` | crates/sealant-capture/src/engine.rs:2477-2488 | a snap whose every tip was a tip before packs no object and lists the packs kept |
| `Git.UnmovedRepositoryPacksNothing` | crates/sealant-capture/src/gitpack.rs:3303-3361 | a repository whose tips did not move packs no object |
| `Git.BuildGitPack` | crates/sealant-capture/src/gitpack.rs:3398-3451 | settled exactly when one of the three attempts packed with nothing moving, and then by the first such; otherwise the last closure packed is packed once more; the pack is always that of the tips returned with it, against the negatives fixed at the start |
| `Cadence.DueIsEarliest` | crates/sealant-capture/src/cadence.rs:244-274 | a snap is due at the earliest of its bounds: first change and maximum, last change and quiet, last snap and maximum when polled, last snap and reconcile |
| `Cadence.StepKeepsAwake` | crates/sealant-capture/src/cadence.rs:688-694 | no step leaves the loop asleep past the class's due time without a notification pending |
| `Cadence.NoLostWakeup` | crates/sealant-capture/src/cadence.rs:688-754 | over every interleaving of signals, snaps, forced snaps, repairs, stops and notifications no wakeup is lost |
| `Cadence.StepRemembers` | crates/sealant-capture/src/cadence.rs:505-537 | a change signalled since a snap began leaves the class dirty after every step but a declined snap, and that one exactly when it was owed |
| `Cadence.ChangesAreRemembered` | crates/sealant-capture/src/cadence.rs:505-537 | so over every run without a declined snap |
| `Cadence.UnseenChangesAreDue` | crates/sealant-capture/src/cadence.rs:448-481 | after an overflow or an unwatched directory the class polls, and the poll is due |
| `Cadence.EndedSnapPutsOffPoll` | crates/sealant-capture/src/cadence.rs:522 | when a snap was under way, that poll is still due at its end if and only if an interval is zero or a change was seen long enough before |
| `Reading.TrustStays` | crates/sealant-capture/src/index.rs:27-35 | writes keep every trusted index entry trusted: a later stamp is another stat |
| `Reading.DroppedMarkIsSafe` | crates/sealant-capture/src/index.rs:1971-1972 | dropping a path's racy mark is safe on every disk if and only if it had none |
| `Reading.TreeBuilder.ChunkFile` | crates/sealant-capture/src/index.rs:1471-1509 | the chunks read are the opened file's unless someone wrote it since; a yield stored a new chunk |
| `Reading.TreeBuilder.ReadAhead` | crates/sealant-capture/src/readahead.rs:277-299 | what a worker keeps of a file read ahead is settled unless marked racy, whatever is written while and after it reads |
| `Reading.TreeBuilder.ReadFile` | crates/sealant-capture/src/index.rs:1390-1461 | a read that is not racy, a worker's or the build's own, is settled: whatever is written later, a file of that stat has that content; the build's own holds the file as it is when the read ends |
| `Reading.TreeBuilder.FileChunks` | crates/sealant-capture/src/index.rs:1511-1532 | an entry is reused only when stat, racy mark, suspects and stored chunks allow, and then it is trustworthy |
| `Reading.TreeBuilder.ReadBoth` | crates/sealant-capture/src/index.rs:2011-2035 | a database and its log, each as it was unless written since |
| `Reading.TreeBuilder.ReadGroup` | crates/sealant-capture/src/index.rs:1996-2054 | untorn and not racy, the two are what the disk holds at one moment |
| `Reading.TreeBuilder.Invalidate` | crates/sealant-capture/src/index.rs:1355-1367 | no path the watcher saw written is reused until it is read |
| `Reading.TreeBuilder.List` | crates/sealant-capture/src/index.rs:1374-1387 | an unmarked entry with a listed file's stat holds what the file held on the disk that was listed |
| `Reading.TreeBuilder.KeepProgress` | crates/sealant-capture/src/index.rs:1535-1543 | what an interrupted build read joins the index, with its racy marks |
| `Reading.TreeBuilder.Build` | crates/sealant-capture/src/index.rs:1550-1989 | everything reused is, stat and content, what the listed disk held, everything referenced is stored, and the index stays trustworthy unless a racy path is carried |
| `Reading.TreeBuilder.Attempt` | crates/sealant-capture/src/engine.rs:1846-1960 | one listing and build: every path reused holds what it held when the attempt began; on a still disk a finished one read exactly the disk, and every chunk read or reused is in the sink |
| `Carry.CarryOne` | crates/sealant-capture/src/index.rs:1596-1616 | the directories missing above a carried file are added up to the nearest node, and the file itself exactly when that node is a directory |
| `Carry.CarryKeepsClosed` | crates/sealant-capture/src/index.rs:1596-1616 | the nodes stay ancestor-closed if and only if that node is a directory or the file's own parent |
| `Carry.CarryAll` | crates/sealant-capture/src/index.rs:1582-1617 | the nodes are the fold of carrying each file in order, and the paths reported carried are exactly the nodes carrying added |
| `Carry.CarriedAllStaysClosed` | crates/sealant-capture/src/index.rs:1582-1617 | carrying them all keeps the nodes ancestor-closed if and only if no file, in its turn, goes past a node that is no directory; and leaves one hanging if one does |
| `Carry.StaleEntryHangs` | crates/sealant-capture/src/index.rs:1596-1616 | an index with a file where a directory was leaves a directory hanging under it |
| `Tree.ChooseIs` | crates/sealant-capture/src/index.rs:1700-1772 | a group's canonical member is one of it and not left out; without one everyone is left out |
| `Tree.LinksReachFiles` | crates/sealant-capture/src/index.rs:1893-1912 | every hardlink targets a file of the same tree on the same inode |
| `Tree.AllReadIsShown` | crates/sealant-capture/src/index.rs:1778-1955 | when everything reads, the tree shows every listed path, with its inode's content through its link |
| `Tree.FlattenGivesBack` | crates/sealant-capture/src/index.rs:1778-1955 | flattening the dir objects from the root gives back what the tree should show, at every path, and nothing else |
| `TreeBuild.ChooseCanonical` | crates/sealant-capture/src/index.rs:1700-1759 | the first member that reads, or at the first unreadable one the first the index holds |
| `TreeBuild.Groups` | crates/sealant-capture/src/index.rs:1622-1634 | each inode's paths in path order |
| `TreeBuild.ResolveGroups` | crates/sealant-capture/src/index.rs:1700-1772 | each member's canonical, the canonical's content, and who is left out |
| `TreeBuild.Children` | crates/sealant-capture/src/index.rs:1646-1656 | each directory's children in order; every directory has a list and nothing else does |
| `TreeBuild.SortByDepth` | crates/sealant-capture/src/index.rs:1657-1660 | the same directories, deepest first |
| `TreeBuild.ChildEntry` | crates/sealant-capture/src/index.rs:1836-1948 | the entry of a child, or none when it vanished or cannot be shown |
| `TreeBuild.DirObject` | crates/sealant-capture/src/index.rs:1778-1954 | the object of a directory; no subdirectory's key is missing when it is encoded |
| `TreeBuild.DirObjects` | crates/sealant-capture/src/index.rs:1778-1954 | every directory's key, and its object stored under it |
| `TreeBuild.KidsDone` | crates/sealant-capture/src/index.rs:1657-1660 | deepest first, every subdirectory's key exists before its parent is built |
| `TreeBuild.Build` | crates/sealant-capture/src/index.rs:1550-1989 | the stored dir objects, flattened from the root, show exactly what the listing and its reads call for, vanished, carried and linked paths included |
| `PackFile.IndexRoundTrip` | crates/sealant-capture/src/pack.rs:271-294 | reading the printed index gives its entries back |
| `PackFile.IndexSize` | crates/sealant-capture/src/pack.rs:27-28 | the 160-byte estimate dominates the printed index of any non-empty pack of at most 64 MiB |
| `PackFile.ParseSealed` | crates/sealant-capture/src/pack.rs:423-446 | the trailer of a sealed pack leads to the entries it was sealed with |
| `PackFile.SealedContents` | crates/sealant-capture/src/pack.rs:271-294 | a sealed pack holds, byte for byte, the chunks written to it |
| `PackFile.HeldIsRead` | crates/sealant-capture/src/pack.rs:489-510 | a pack reads back every chunk it holds |
| `PackFile.OtherIsAbsent` | crates/sealant-capture/src/pack.rs:489-492 | and answers nothing for any other |
| `Packs.PackWriter.Finish` | crates/sealant-capture/src/pack.rs:266-294 | the pack holds what was appended and is at most the cap, index and trailer counted |
| `Packs.PackBuilder.AddPacked` | crates/sealant-capture/src/pack.rs:349-381 | a seen chunk changes nothing, one too large for an empty pack is refused, any other becomes the last; a pack is closed only when the chunk does not fit |
| `Packs.PackBuilder.Add` | crates/sealant-capture/src/pack.rs:339-346 | the same for a chunk not yet compressed |
| `Packs.PackBuilder.Rotate` | crates/sealant-capture/src/pack.rs:383-402 | the open pack is closed with what it holds |
| `Packs.PackBuilder.Finish` | crates/sealant-capture/src/pack.rs:405-418 | the packs are within the cap and partition the chunks added, none twice |
| `Packs.NoneShared` | crates/sealant-capture/src/pack.rs:355-357 | no chunk is in two packs, or twice in one |
| `Packs.PackAll` | crates/sealant-capture/src/pack.rs:339-418 | every chunk of a stream is read back from exactly one pack, every pack is within the cap, and the build fails if and only if a chunk fits no pack |
| `ReadAhead.HeldSet` | crates/sealant-capture/src/readahead.rs:131-133 | setting one slot moves the sum of the held bytes by its weight |
| `ReadAhead.Shared.constructor` | crates/sealant-capture/src/readahead.rs:88-97 | every planned file once, all waiting, nothing held |
| `ReadAhead.Shared.Take` | crates/sealant-capture/src/readahead.rs:112-138 | the build waits exactly when a worker is reading the file; a result is given once, and it is what the worker read |
| `ReadAhead.Shared.Next` | crates/sealant-capture/src/readahead.rs:151-179 | a worker starts the first waiting file, waits exactly when the results hold the budget, and ends when nothing waits |
| `ReadAhead.Shared.Finish` | crates/sealant-capture/src/readahead.rs:180-189 | the result fills its slot and the held bytes stay the sum over finished slots |
| `ReadAhead.Jobs.Send` | crates/sealant-capture/src/readahead.rs:251-255 | a job joins those sent, and finds no room only if as many are sent and not taken as there is room for |
| `ReadAhead.Jobs.Receive` | crates/sealant-capture/src/readahead.rs:202-206 | the answer taken is that of the oldest job not taken, whatever order they are answered in |
| `ReadAhead.PackParts` | crates/sealant-capture/src/readahead.rs:216-274 | parts are put in file order whatever order workers answer in, at most twice the workers are ever in flight, no job send ever finds the channel full, nothing is put after a refused part, and it succeeds exactly when every part reads, packs and is accepted |
| `ReadAhead.PackFileParts` | crates/sealant-capture/src/readahead.rs:216-274 | so over a file's parts from the channel's making to its end, with threads or with none |
| `ReadAhead.PutNext` | crates/sealant-capture/src/readahead.rs:240-262 | the next part is put exactly when it packs, and taken exactly when it is accepted |
| `LongPath.NextRun` | crates/sealant-capture/src/longpath.rs:110-121 | the longest run of whole components that fits one call, and what follows it |
| `LongPath.OpenDir` | crates/sealant-capture/src/longpath.rs:102-139 | every run fits, together they lead where the path does, and a path of short names never fails |
| `LongPath.PendingChildren` | crates/sealant-capture/src/longpath.rs:596-601 | children pushed in reverse are visited in order |
| `LongPath.Push` | crates/sealant-capture/src/longpath.rs:591-609 | a directory's entries go on the stack in order of visit, or its error is visited |
| `LongPath.VisitTop` | crates/sealant-capture/src/longpath.rs:611-634 | popping, visiting and pushing leave the rest of the walk unchanged |
| `LongPath.Walk` | crates/sealant-capture/src/longpath.rs:589-635 | the stack walk visits exactly the recursive preorder in byte order, pruned directories and errors in place |
| `CivilDate.CivilNext` | crates/sealant-capture/src/manifest.rs:682-698 | the date of the next day count is the next day of the Gregorian calendar |
| `CivilDate.CivilInvertsDayNumber` | crates/sealant-capture/src/manifest.rs:682-698 | for every timestamp the date is valid and its calendar day count is the timestamp's |
| `CivilDate.DayNumberInvertsCivil` | crates/sealant-capture/src/manifest.rs:682-698 | every date of the calendar is the date of its count |
| `CivilDate.PrintedTimeReadsBack` | crates/sealant-capture/src/manifest.rs:682-698 | for years 0000 to 9999 the text fits the grammar of section 5.6 of RFC 3339 and reads back as the timestamp |
| `CivilDate.TextOrderIsTimeOrder` | crates/sealant-capture/src/manifest.rs:682-698 | text order is time order, as section 5.1 of RFC 3339 intends |
| `Position.LaterIsNewer` | crates/sealant-capture/src/position.rs:7-25 | a later position was issued later and never describes an older state |
| `Position.StrictPartialOrder` | crates/sealant-capture/src/position.rs:20-25 | the comparison is a strict partial order on what one disk issues |
| `Position.Machine.NextGeneration` | crates/sealant-capture/src/position.rs:71-94 | failed or cut short at any step, a counted boot's generation is above every one counted before |
| `Position.Machine.GoDown` | crates/sealant-capture/src/position.rs:88-93 | what was renamed and not synced may be lost; no counted generation is |
| `Position.Machine.Boot` | crates/sealant-capture/src/position.rs:101-117 | a boot that could not be counted has generation 0 and is ordered against no other |
| `Position.Machine.Observe` | crates/sealant-capture/src/position.rs:133-141 | the next number of this boot, describing the state as it is |
| `Keys.GenerationRecovered` | crates/sealant-capture/src/keys.rs:98-111 | a key gives back the generation it was written under, or none |
| `Keys.DigestRecovered` | crates/sealant-capture/src/keys.rs:78-83 | a key gives back the content hash it names, a pack index its pack's |
| `Keys.KeysAreDistinct` | crates/sealant-capture/src/keys.rs:27-67 | no two objects share a key, across worktrees, epochs, generations and kinds |

## Left out

- Chain.Restart: the identity changes of `rebase` and `pickup`; a restart keeps the worktree and epoch.
- Engine.CaptureEngine.StageSnap: I/O failing after the build committed; a failed write there is outside the runs.
- FinalFlush.CadenceRunner.FlushFinalSealing: deadlines, and that shipping ends; it says what a flush that returns may claim.
- FinalFlush.CadenceRunner.FlushTwice: a repair that rebuilds both classes is counted as spoiling what is remembered too.
- FinalFlush.CadenceRunner.Rebuild: a rebuilt capture is never the refused one again, manifest and second of its making included; nor is a staged one. Which classes a repair rebuilds is free here; module Store has the plan.
- FinalFlush.CadenceRunner.Round: that no process is left to write after a census which found none is taken from the caller; one final flush runs at a time.
- FlushWorld.ResnapStagesNothing: the worktree metadata overlay, whose chunks count among the small tree's.
- ClassBuild.PackDirs: dir objects go to the packs in any order; that the order is by digest, so that a tree packs to the same bytes, is not proved.
- Store.RebuiltNamesEarlierGit: a refusal may leave unnamed a key an earlier one named; that registrars name every missing key is not assumed.
- ChainRegisters.RunRefinesRegisters: runs of one process; across a restart only the chain's shape and the other platforms are proved.
- Store.LocationsStayFindable: per queue, not per capture; a hoisted small capture may name a chunk pack that only the bulk capture above it lists, and is refused and rebuilt if it registers first.
- Git.BuildGitPack: running git, its stderr and fsck; a pack is the set of objects it holds.
- Cadence.NoLostWakeup: the alias loop, and admission and fencing, which are the free choice between snapping and declining.
- Reading.TreeBuilder.Build: hardlink groups and file groups are read here as single paths; the bytes of a file are the list of its chunks.
- TreeBuild.Build: the reads are part of its input, and its nodes are ancestor-closed; modes, times and a directory's unread mark are not entries' fields.
- PackFile.ParseSealed: the JSON reader accepts the form the writer prints and no other spacing or field order.
- Packs.PackBuilder.AddPacked: caps above 64 MiB, which the format does not allow; temporary files, syncs, renames and hashing ahead.
- LongPath.OpenDir: the directory opens themselves; a failed one ends the loop with its error.
- LongPath.Walk: names are their rank in byte order; the filesystem holds still during a walk.
- Position.Machine.NextGeneration: the text of the generation file; a boot id never repeats.
- Uploads to the store, presigned URLs, multipart, quotas, leases and fencing: glue around the shipping steps modelled here.
- Running git, filter drivers, reftable, nested repositories and the worktree metadata overlay: foreign process behaviour.
- FastCDC cut points, SHA-256 and zstd: external libraries.
- Materialization, the watcher's event stream, ownership and alias tables, the exclusion tables: mostly case tables and I/O, easy members.
- The peer protocol, frames, fuzz targets, build scripts and the TypeScript packages: thin I/O.
