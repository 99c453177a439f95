# Verification of the niova block CSI driver

This Dafny project models the node plugin of the driver - staging, publishing, unpublishing and
unstaging of ublk-backed volumes, and the recovery of a restarted plugin - together with the host
it drives, and the controller plugin against its control plane. It proves what the code promises
about them over all runs: with any number of volumes, in any interleaving, with any step failing,
daemons dying, links going away and the plugin being restarted at any point.

## How the model is built

- **Host** (`HostModel.dfy`). Units by name, by-uuid links and the ublk minors they resolve to, the
  filesystem on each device, a stack of mounts per path, and what lies under them. Each primitive
  (start and stop a unit, resolve, `ublk del`, blkid, mkfs, IsMountPoint, mount, unmount, stat,
  mkdir, remove) is a function of the host and an outcome that the environment chooses. A unit that
  is loaded cannot be started again; starts, stops, deletes and mkfs may report a failure and have
  taken effect all the same.
- **State machine** (`Machine.dfy`). One step is one locked look at or change of the volume map, one
  host primitive of a call in flight, something the host does by itself, or a restart. A run is any
  sequence of such events. The rule of the Container Storage Interface specification v1.8.0, section
  "Concurrency", that there is normally one call in flight per volume is built in: a call for a
  volume that has one in flight is not delivered. `Effects.dfy` says which part of the host a step
  can touch.
- **Code** (`NodeHost.dfy`, `NodeManagers.dfy`, `NodeTypes.dfy`, `NodePlugin.dfy`, `Config.dfy`,
  `Controller.dfy`). The handlers and managers as classes and methods with the code's own branches
  and loops. Every host primitive takes the matching step of the machine and can be called only
  where the machine makes that step, so a handler that verifies has made exactly the machine's
  steps: its contract is that the whole call is a run of the machine which ends with the handler's
  answer. Handlers are verified one call at a time, with the host acting in between; the theorems on
  interleavings are about the machine. Where a handler's body was too long for one proof, its lock-free
  middle part or its end is a method of its own.
- **Theorems about the node**: `Invariant`, `Views`, `Serialisability`, `Mounts`, `StageSoundness`,
  `Recovery`, `Conservation`, `Rollback`, `RestartBisimulation`, `Delivery`, `CleanCalls`,
  `Lifecycle`, `Shortfalls`, `Witnesses`; and, said without the words of the code, what every call
  answers and what it does to its paths and filesystem: `Answers`, `Cleanup`, `Filesystems`. About the
  controller: `ControlPlane`, `Controller`, `ControllerAnswers`, and the texts it shares with the node,
  `Decimal` and `Uuid`.

Different volumes are assumed not to share staging or target paths (`OwnedRequest`). Nothing else is
assumed of requests: empty fields, unknown volumes, unparsable IDs and sizes, missing capabilities
and unsupported filesystems are all there and refused as the code refuses them.

## What the code does not keep

For each of these there is an exact condition, an if-and-only-if or a statement about every run, and
for those of the node also a run from a plugin that has just started in which it happens
(`Witnesses`; for the staging directory, every lifecycle).

- A restart takes every volume whose link resolves for staged. It keeps staging sound if and only if
  the device was not up with nothing mounted (`Recovery.RestartSoundExactly`). A restart between the
  device coming up and the mount makes the next stage succeed without a mount
  (`Witnesses.StagedUnmounted`).
- blkid failing with any message but "No such device" reads as an empty device, and mkfs is forced. A
  run executes mkfs on a device with a filesystem if and only if a second probe failed to show it
  (`Mounts.ReformatExactly`); what is on the device is what the last mkfs to take effect wrote
  (`Mounts.FormatOverwrites`), and without such a probe what was there (`Mounts.FilesystemSurvives`).
  One unanswered probe, and a stage succeeds on a new filesystem (`Witnesses.StageReformats`).
- A stage parses the volume ID last. Failing stages leave the volume's mounts alone if and only if the
  ID parses (`Shortfalls.BadIdExactly`); with an ID that does not, one in which nothing else goes
  wrong ends with the mount in place and no entry (`Shortfalls.BadIdLeavesMount`,
  `Witnesses.RefusedButMounted`).
- Giving up the wait for a device stops the unit only. A failing stage leaves a link behind if and only
  if the device came up between the deciding look and the end of the daemon and the link did not go
  afterwards, and one more minor for each time it came up then; unit, entry and mounts are as before
  (`Rollback.LateDeviceStays`, `Witnesses.LateDeviceLeft`).
- An unstage drops the entry even if the device would not go (`Shortfalls.UnstageDropsAnyway`). The
  comment at pkg/node/node.go:193-195 says that falling back to the derived path keeps the unit from
  leaking; but if the link does not resolve, DeleteUblkDevice returns before it stops the unit. An
  unstage none of whose steps fails leaves the unit loaded if and only if it was loaded, did not go by
  itself and the link did not resolve (`Shortfalls.UnresolvedLinkLeaks`); if the host leaves the
  volume alone meanwhile, if and only if it was loaded without a link at the beginning
  (`Shortfalls.UnstageLeaksExactly`). That is so when a daemon without the recovery flag has crashed
  and systemd has yet to start it again (`Witnesses.CrashedDaemonLeaks`).
- A restart that is not given a list, or one without the volume, loses the entry. The mount stays
  (`StageSoundness.MountStays`), but an unstage then succeeds without doing anything: after a success
  nothing is mounted at the staging path if and only if the map had the volume or nothing was mounted
  there (`Shortfalls.UnstageUnmountsExactly`, `Witnesses.LostEntryLeaks`).
- An unpublish succeeds even if the target could not be removed (`Witnesses.TargetStays`). Delivering
  an unpublish again is without effect if and only if the target is not mounted and, for a volume that
  the map has, gone and no longer recorded (`Delivery.UnpublishRepeatsExactly`).
- An unstage removes the staging directory, also one that the caller had made before the stage, as the
  Container Storage Interface specification v1.8.0 (NodeStageVolume) asks it to. A lifecycle restores
  the volume's paths if and only if the staging path did not exist (`Lifecycle.BalancedLifecycle`).
- CreateVolume takes any error of its lookup for the name being free. Repeating it leaves at most one
  device of the name if and only if no call makes one more than there is room for, a condition on the
  verdicts, free IDs and logins of the rounds it reaches (`ControlPlane.SoleExactly`). That is so if
  every lookup gets through in a round it reaches and resolves truly, and errors that look like a
  rejected token mean no effect (`ControlPlane.ExactlyOnce`); a lookup that times out breaks it
  (`ControlPlane.LookupFaultDuplicates`).
- Any error that mentions "expired" or "Invalid Token" is retried as a rejected token, also one that
  comes after the request took effect. `ControlPlane.ExpiredTextDuplicates` says exactly when one
  allocation makes a second device of the name.
- DeleteVolume reports success and deletes nothing if and only if the device is there and its lookup
  fails (`ControlPlane.DeletesExactly`).

## Model

| member | source | states |
|---|---|---|
| `Invariant.MapWellFormed` | pkg/config/config.go:273-294 | After any run, also one with a recovery cut short by a bad ID, a staged entry's device path is the one derived from its key, the key parses and VolID is its parse; no two staged volumes share a device path |
| `Invariant.TeardownIsolation` | pkg/node/ublk.go:104-132 | In any run the minor about to be given to `ublk del` is reserved for the volume being torn down, and deleting it takes no device, link or unit from another volume |
| `Invariant.InvRun` | pkg/node/node.go:98-156 | Links resolve to reserved minors of the volume they are named after, the map is well formed and captured minors belong to their volume, in every reachable state |
| `Invariant.InvStarts` | cmd/node/main.go:66-75 | They hold when the plugin has started with an empty map on a host whose links resolve to their own volumes |
| `Effects.ActTouches` | pkg/node/node.go:114-156 | A step changes only the path it works on, only its own volume's unit, links and minors only in `ublk del`, and a filesystem only in mkfs |
| `Views.StepIsLocal` | pkg/node/node.go:152-156 | A step of one volume changes nothing that another volume sees |
| `Views.StepAgrees` | pkg/node/node.go:98-156 | What a volume sees after its step depends only on what it saw before, up to minor numbers |
| `Serialisability.Projection` | pkg/node/node.go:98-156 | What a volume sees after a run depends only on its own events |
| `Serialisability.Serialisable` | pkg/node/node.go:152-156 | Between restarts, every interleaving of calls for different volumes that starts and ends with none in flight ends like some serial order of the same calls that begins them in the same order: same responses, entries, units, links, numbers of minors, filesystems, mounts and paths |
| `Serialisability.InterleavingIrrelevant` | pkg/node/node.go:176-212 | The order of steps of different volumes does not matter, also with calls still in flight |
| `Mounts.MountsNeverStack` | pkg/node/mount.go:78-93 | From an unstacked host, no path ever carries two mounts, across stages, publications, retries, failures and restarts |
| `Mounts.FilesystemWrittenOnce` | pkg/node/mount.go:41-93 | With a faithful blkid, a volume's filesystem goes from none to one supported type at most once, and every mount of the device has the type that is on it |
| `Mounts.ReformatExactly` | pkg/node/mount.go:211-235 | From a state in which the volume has a filesystem and no call in flight, a run with any calls, failures and restarts between calls executes mkfs on its device if and only if some second probe failed to show the filesystem |
| `Mounts.FormatOverwrites` | pkg/node/mount.go:331-360 | After any run the filesystem on the device is what the last mkfs to take effect wrote, reported as a success or not, or else what was there before |
| `Mounts.FilesystemSurvives` | pkg/node/mount.go:41-67 | So a filesystem outlives every run without a blind second probe, whatever else blkid says |
| `StageSoundness.StageSound` | pkg/node/node.go:105-156 | Whenever a stage of a filesystem volume succeeds, in any run with safe restarts, the staging path carries exactly one mount, of that volume's device |
| `StageSoundness.MountStays` | pkg/node/node.go:162-191 | The mount stays until an unstage of the volume begins, whatever is called, fails, dies or is restarted meanwhile, also if a restart loses the volume's entry |
| `StageSoundness.StagedUntilUnstage` | pkg/node/node.go:98-191 | From any success of a stage until the next unstage of the volume begins, the staging path carries exactly one mount, of the volume's device |
| `StageSoundness.StagedIsMounted` | pkg/node/node.go:185-191 | In any run with safe restarts, also after failed unstages, a staged volume with no unstage in flight is mounted |
| `Recovery.RecoverMeaning` | pkg/config/config.go:269-296 | With IDs that all parse, recovery updates exactly the listed volumes whose link resolves and keeps the other fields of existing entries |
| `Recovery.RecoverUnordered` | pkg/config/config.go:273-294 | The order of the list and repetitions in it do not matter |
| `Recovery.RecoverIdempotent` | pkg/config/config.go:269-296 | Recovering twice is recovering once |
| `Recovery.RecoverAborts` | pkg/config/config.go:287-292 | A bad ID with a live link ends the loop there and leaves an entry without a device path |
| `Recovery.RestartAdopts` | pkg/config/config.go:255-279 | After a restart a volume is staged if and only if it is listed and its link resolves, so leaked units are adopted again |
| `Recovery.RestartSoundExactly` | pkg/config/config.go:276-293 | A restart keeps a filesystem volume's staging sound if and only if its device was not up unmounted |
| `Conservation.UnitsConserved` | pkg/node/node.go:196-212 | In every reachable state, a volume with no call in flight has a live unit and a link exactly if it is staged, or it is under suspicion because something about its unit or device failed, was cut off or died |
| `Conservation.ConservedStarts` | cmd/node/main.go:66-75 | It holds at the start for every volume of which the host has nothing |
| `Conservation.UnitsExact` | pkg/node/ublk.go:82-136 | Without such a cause there is no suspicion: units, links and staged entries agree |
| `Conservation.MinorsExact` | pkg/node/ublk.go:101-136 | Nor is a minor leaked: but for the one that the link shows or that is about to be deleted, as many are reserved for the volume as before |
| `Rollback.FailedStageRollsBack` | pkg/node/node.go:114-133 | A failed stage with a parsable ID whose cleanup succeeds leaves unit, link, number of minors, mounts and entry as they were, whatever other volumes did meanwhile |
| `Rollback.FailedStart` | pkg/node/ublk.go:82-85 | A stage that finds the unit loaded, as any does if it was loaded at the beginning and its daemon does not die, or whose start is never dispatched, fails and leaves host, map and other calls as they would be without it |
| `Rollback.FailedStep` | pkg/node/systemd.go:75-95 | A start that fails never takes a live unit down, and leaves a unit behind exactly if the job was dispatched |
| `Rollback.LateDeviceStays` | pkg/node/ublk.go:87-93 | A failing stage, with no cause for suspicion until the wait is given up and a stop that succeeds, restores unit, entry and mounts; it leaves a link if and only if the device came up between the deciding look and the end of the daemon and the link did not go afterwards, and one more minor for each such device |
| `RestartBisimulation.BisimilarRun` | pkg/node/node.go:105-112 | States that agree on the host, the keys and the device paths behave the same under all later events |
| `RestartBisimulation.RestartInvisibleExactly` | pkg/config/config.go:263-297 | A restart at rest cannot be told if and only if the map has exactly the listed volumes whose link resolves, each with its path |
| `RestartBisimulation.RestartIsInvisible` | pkg/node/node.go:307-327 | With no unit out of step and all volumes listed under parsable IDs, dropping and rebuilding the map changes no later response and no later effect on the host |
| `Delivery.CallsEnd` | pkg/node/node.go:58-336 | Every call is answered after a bounded number of its steps, whatever their outcomes |
| `Delivery.RedeliveryChangesNothing` | pkg/node/node.go:105-112 | Delivering a call again and again whose effect is in place, with steps of other volumes and of the host in between, ends with host, map, other calls and other responses as if only those had happened; if no repeated step fails, every repetition succeeds |
| `Delivery.SuccessPutsInPlace` | pkg/node/node.go:298-331 | A call answered with success has put its effect in place, whatever other volumes and the host did while it was in flight |
| `Delivery.AtLeastOnce` | pkg/node/mount.go:110-184 | After a call answered with success, delivering it any number of times more, with anything else happening during and between the deliveries, leaves host, map, other responses and all later responses to every volume as if it had been delivered once |
| `Delivery.UnpublishRepeatsExactly` | pkg/node/node.go:298-331 | Repeating an unpublish is without effect in every run if and only if nothing is mounted at the target and, for a known volume, the target is gone and no longer recorded |
| `Lifecycle.BalancedLifecycle` | pkg/node/node.go:114-331 | Stage, publications to fresh targets and the matching unpublications in any order, then unstage, among whatever other volumes do, with this volume's host operations succeeding: all succeed and unit, link, number of minors, mounts, paths and entry are as before, but for the staging path, which is gone; only an empty device got a filesystem; other volumes end as if the lifecycle had not been |
| `Lifecycle.LifecycleAlone` | pkg/node/node.go:114-331 | A lifecycle by itself restores host and map exactly, but for that filesystem and the staging path |
| `Lifecycle.CallDoesAmongOthers` | pkg/node/node.go:98-156 | A call whose operations succeed does for its volume the same among other volumes' steps as alone |
| `CleanCalls.CallDoes` | pkg/node/node.go:58-336 | What each of the four calls does to host, map and response when its operations succeed, for a staging path that is there or not, and for a stage with an ID that does not parse |
| `CleanCalls.CallCanComplete` | pkg/node/node.go:58-336 | A call that is ready can always be brought to such an end |
| `Answers.AnswersExactly` | pkg/node/node.go:58-336 | In any run a call that lacks a field is refused with InvalidArgument; a stage of a staged volume and an unstage of an unknown one succeed at once, a publication of an unknown one fails with FailedPrecondition; any other call answers Internal if and only if an operation fails that it cannot go on after, else InvalidArgument for a stage with an ID that does not parse, else OK; only OK changes the entry, to what the request gives |
| `Answers.UnpublishUnmountsExactly` | pkg/node/node.go:276-336 | An unpublish, with any outcomes, answers Internal if and only if its first unmount fails, with mount, target and record as before; otherwise OK, with nothing mounted at the target, no other path changed, and nothing of the entry but the record cleared |
| `Answers.PublishMountsExactly` | pkg/node/node.go:218-274 | A publish, with any outcomes, answers Internal if and only if one of its operations fails, with no mount and no entry changed; otherwise OK, with the target as it was if it was mounted, else showing the raw device or what the staging path shows, and the target recorded |
| `Cleanup.CleansExactly` | pkg/node/mount.go:152-208 | What an unstage or unpublish of which no step fails leaves at its path, whatever was mounted there: at most two mounts less, and no path if none is left |
| `Cleanup.PathStaysExactly` | pkg/node/mount.go:190-208 | After a successful unstage or unpublish of a known volume the path is still there if and only if it was and a step of the cleanup up to the removal failed |
| `Filesystems.StageGivesFilesystem` | pkg/node/node.go:121-126 | A stage with nothing going wrong mounts the filesystem that was on the device, or else the type it names, or ext4 if it names none |
| `Filesystems.SupportedCanBeStaged` | pkg/node/mount.go:283-292 | Each of ext4, ext3 and xfs can be staged, on an empty device and on one with any of them |
| `Filesystems.OtherTypesAreRefused` | pkg/node/mount.go:248-281 | A stage that asks for any other type, or whose first probe shows one, answers Internal, and never runs mkfs, mounts or makes an entry |
| `Shortfalls.BadIdExactly` | pkg/node/node.go:136-142 | For a stage of a filesystem volume of which nothing is there: every failing run leaves the volume's mounts as they were if and only if its ID parses |
| `Shortfalls.BadIdLeavesMount` | pkg/node/node.go:136-142 | With an ID that does not parse and nothing else going wrong, the stage ends with InvalidArgument, no entry and no device, and the volume's device is mounted at the staging path |
| `Shortfalls.BadIdKeepsMounts` | pkg/node/node.go:136-142 | From the parse on such a stage ends with InvalidArgument and no entry, and takes no mount away, even if its cleanup fails |
| `Shortfalls.UnstageDropsAnyway` | pkg/node/node.go:193-215 | An unstage that is through with its first unmount, or none of whose steps fails, succeeds and drops the entry; otherwise it does so or fails and keeps it |
| `Shortfalls.UnstageUnmountsExactly` | pkg/node/node.go:176-215 | After an unstage answered with success, whatever failed in it, there is no entry, and nothing is mounted at the staging path if and only if the map had the volume or nothing was mounted there before |
| `Shortfalls.UnresolvedLinkLeaks` | pkg/node/ublk.go:112-119 | An unstage none of whose steps fails leaves the unit loaded if and only if it was loaded, did not go by itself and the link did not resolve when the unstage came to it |
| `Shortfalls.UnstageLeaksExactly` | pkg/node/node.go:193-203 | If the host leaves the volume alone meanwhile: if and only if the unit was loaded and its link was not there when the unstage began |
| `Witnesses.StagedUnmounted` | pkg/node/node.go:307-327 | Begin, start, device up, restart, begin: the second stage succeeds with nothing mounted |
| `Witnesses.StageReformats` | pkg/node/mount.go:217-235 | A first stage of a volume with a filesystem whose second probe gets no answer succeeds on a new one |
| `Witnesses.LateDeviceLeft` | pkg/node/ublk.go:87-93 | A first stage whose device comes up after the deciding look fails and leaves link and minor without unit and entry |
| `Witnesses.RefusedButMounted` | pkg/node/node.go:136-142 | A first stage of an ID that does not parse is refused with the mount in place |
| `Witnesses.CrashedDaemonLeaks` | pkg/node/systemd.go:63-66 | A staged volume's daemon crashes, the link goes and the unit stays loaded: the unstage succeeds and leaves the unit |
| `Witnesses.LostEntryLeaks` | cmd/node/main.go:69-75 | A staged volume, a restart without a list, and an unstage: it succeeds, and unit, link and mount are still there |
| `Witnesses.TargetStays` | pkg/node/node.go:298-331 | An unpublish that cannot remove the target succeeds with the target still there |
| `NodePlugin.NodeServer.NodeStageVolume` | pkg/node/node.go:58-160 | The whole call is a run of the machine from where it was received, with the machine's answer, and the map stays the machine's |
| `NodePlugin.NodeServer.NodeUnstageVolume` | pkg/node/node.go:162-216 | The same for unstaging |
| `NodePlugin.NodeServer.NodePublishVolume` | pkg/node/node.go:218-274 | The same for publishing |
| `NodePlugin.NodeServer.NodeUnpublishVolume` | pkg/node/node.go:276-336 | The same for unpublishing |
| `NodePlugin.HandledCallsAreRuns` | pkg/node/node.go:58-336 | A handled call keeps the invariant and the soundness of every filesystem volume's staging path |
| `NodePlugin.Boot` | cmd/node/main.go:69-75 | A plugin that starts makes the machine's restart |
| `NodeManagers.UblkManager.CreateUblkDevice` | pkg/node/ublk.go:52-97 | Starts the unit and waits; makes the machine's steps of creation, and of stopping again if the wait fails |
| `NodeManagers.UblkManager.DeleteUblkDevice` | pkg/node/ublk.go:101-136 | Resolves, stops and deletes in this order, or only stops if there is no path; makes the machine's steps of a deletion |
| `NodeManagers.UblkManager.WaitForByUUIDLink` | pkg/node/ublk.go:162-173 | At most 60 looks at least 500 ms apart, and the path only if the last one saw the link |
| `NodeManagers.WaitLooks` | pkg/node/ublk.go:162-173 | At most 60 looks, at least 500 ms apart, all but the last within 29.5 s; on time, one every 500 ms from the start |
| `NodeManagers.WaitFindsLink` | pkg/node/ublk.go:162-173 | On time, the wait finds every link that appears within 29.5 s and stays, at the first look after it appears |
| `NodeManagers.MountManager.FormatAndMountDevice` | pkg/node/mount.go:33-102 | Makes the machine's steps from mkdir to mount, formatting only if no filesystem was found |
| `NodeManagers.MountManager.ValidateFilesystemCompatibility` | pkg/node/mount.go:248-281 | Goes on exactly if the requested type and any type found are supported |
| `NodeManagers.MountManager.BindRawBlock` | pkg/node/mount.go:104-124 | Binds the device unless the target is mounted; the machine's steps of a block publication |
| `NodeManagers.MountManager.BindMount` | pkg/node/mount.go:126-150 | Binds the staging path unless the target is mounted; the machine's steps of a filesystem publication |
| `NodeManagers.MountManager.Unmount` | pkg/node/mount.go:152-188 | The machine's steps of an unmount, of a path that may not be there or not be mounted |
| `NodeManagers.MountManager.CleanupMountPoint` | pkg/node/mount.go:190-208 | The machine's steps of an unmount and a removal |
| `NodeHost.HostSystem.GiveUp` | pkg/node/ublk.go:165-172 | When the wait ends in vain, the machine's wait ended at the last look, and what the host did since came after |
| `Config.ConfigManager.UpdateNodeVolumeMap` | pkg/config/config.go:263-297 | The loop computes the recovered map, in place, and tells whether it got through |
| `Config.ConfigManager.VerifyTokenExpiryAndReLogin` | pkg/config/config.go:111-122 | Logs in again exactly for errors that look like a rejected token |
| `Config.ConfigManager.RetryAuth` | pkg/config/config.go:147-160 | The loop's result and effect are those of the specification of the retry, over at most MAX_RETRY rounds |
| `Config.ConfigManager.GetVolume` | pkg/config/config.go:214-228 | A retried lookup, by ID or by name |
| `Config.ConfigManager.AllocVdev` | pkg/config/config.go:162-192 | A retried creation |
| `ControlPlane.LooksExpiredExactly` | pkg/config/config.go:111-122 | The errors that lead to a new login are those that wrap the expiry error and those with "expired" or "Invalid Token" anywhere in their text |
| `ControlPlane.RetriedAfterMention` | pkg/config/config.go:147-160 | A request that comes back with such a text is made again after a good login, and the caller has the reply to the second if it is served |
| `ControlPlane.RequestsAreBounded` | pkg/config/config.go:147-160 | A request is made at most MAX_RETRY times, and never after a success or an error that does not look like a rejected token |
| `ControlPlane.RetryIsOneRequest` | pkg/config/config.go:111-160 | If the login yields a good token, the retried request has the result and effect of one request with a fresh token |
| `ControlPlane.LookupLooks` | pkg/config/config.go:230-237 | A lookup changes nothing, and what it finds is there under that ID or name |
| `ControlPlane.AllocMakes` | pkg/config/config.go:147-192 | Which devices an allocation makes, from the verdicts, free IDs and logins of its rounds; on success it returns the ID of the last |
| `ControlPlane.AllocMakesOne` | pkg/config/config.go:162-192 | If errors that look like a rejected token mean no effect, an allocation makes at most one device, and on success the one whose ID it returns |
| `ControlPlane.LookupFindsExactly` | pkg/config/config.go:214-237 | A lookup succeeds if and only if a round it reaches is served with a good token and finds the name; it changes nothing but the token |
| `ControlPlane.CreateDoes` | pkg/controller/controller.go:76-114 | What one CreateVolume does: no device if the lookup finds the name, else those its allocation makes, of the name and size; success names a device of that name and size, with 1 GiB for 0; AlreadyExists means another size |
| `ControlPlane.SoleExactly` | pkg/controller/controller.go:76-107 | However often a CreateVolume is repeated, there is at most one device of the name if and only if no call whose lookup does not find it makes more devices than there is room for |
| `ControlPlane.ExactlyOnce` | pkg/controller/controller.go:76-114 | If every lookup is served in a round it reaches and resolves a present name to its device, and errors that look like a rejected token mean no effect, there is at most one device and all successes agree, for any token expiry and lost replies |
| `ControlPlane.CreatesAgree` | pkg/controller/controller.go:76-114 | If no call doubles it, all successes return the same ID, of a device that has the name and size |
| `ControlPlane.LookupFaultDuplicates` | pkg/controller/controller.go:78-82 | A lookup that times out, and the name has two devices |
| `ControlPlane.ExpiredTextDuplicates` | pkg/config/config.go:111-160 | One allocation leaves two devices of a name that was free if and only if its first round took effect and came back with what looks like a rejected token, the login succeeded, and the second round took effect; of a name that was taken, if and only if either round took effect |
| `ControlPlane.DeletesExactly` | pkg/controller/controller.go:117-145 | A delete touches no other device, and success leaves the device if and only if it was there and the lookup failed |
| `ControllerAnswers.CreateAnswers` | pkg/controller/controller.go:45-115 | The exact answer of a CreateVolume: InvalidArgument for what it lacks; the found device if it has the size, with 1073741824 for 0, else AlreadyExists; if none is found the one that was made, else ResourceExhausted |
| `ControllerAnswers.RetriesSucceed` | pkg/controller/controller.go:73-91 | Under the hypotheses of ExactlyOnce every CreateVolume after a successful one succeeds with the same ID and size |
| `ControllerAnswers.DeleteAnswers` | pkg/controller/controller.go:122-145 | The exact answer of a DeleteVolume: success if the lookup finds nothing or the removal is served, else Internal |
| `ControllerAnswers.PublishAnswers` | pkg/controller/controller.go:147-189 | The exact answer of a ControllerPublishVolume: a context with a text that denotes the size if the node exists and the volume is found, else what is missing |
| `Controller.ControllerServer.CreateVolume` | pkg/controller/controller.go:45-115 | The handler does what the specification of CreateVolume says |
| `Controller.ControllerServer.DeleteVolume` | pkg/controller/controller.go:117-145 | The handler does what the specification of DeleteVolume says |
| `Controller.ControllerServer.ControllerPublishVolume` | pkg/controller/controller.go:147-189 | The handler answers as specified and changes no device |
| `Controller.SizeReachesNode` | pkg/controller/controller.go:184-187 | The size text written for the node denotes the size of the volume asked for, and no stage that passes it on is refused because of it |
| `Decimal.SizeRoundTrip` | pkg/node/node.go:92-96 | For every 64-bit size, the text printed is parsed back to the same number |
| `Decimal.ParseIsDenotation` | pkg/node/node.go:92-96 | What the parser accepts is a 64-bit number's own digits after zeros, with the number's sign |
| `Decimal.DenotationParses` | pkg/node/node.go:92-96 | Every such text is accepted and denotes that number |
| `Uuid.ParseExactly` | pkg/node/node.go:136-142 | A text parses to a UUID if and only if it is, in upper or lower case, its canonical text, that after "urn:uuid:" or between two characters, or its digits; so each form is read back |
| `Types.TextsIdentify` | pkg/types/types.go:59-61 | Device paths and unit names are the volume's ID between fixed words, and those of different volumes have different texts |

## Left out

- Calls that overlap on one volume: check-then-mount and lookup-then-allocate are not atomic; the
  specification's section "Concurrency" is relied on instead. CreateVolume calls for one name are
  taken one after the other.
- Handlers overlapping in the class model: a handler method is verified as one call with the host
  acting in between; interleavings are covered by the state machine and its serialisability.
- systemd, D-Bus, udev, the kernel, blkid, mkfs and mount themselves: only what each may do to the
  host and report. A start job that reports a failure takes effect at once or not at all.
- Units are loaded units, whether or not their process runs. A daemon that systemd starts again after
  a crash (pkg/node/systemd.go:57-63) finds its device as it was, with the recovery flag, or its link
  goes and comes back on another minor; that it takes its old minor again is not modelled.
- Minors set free by anything but `ublk del`: a minor stays reserved until then, which
  `Invariant.TeardownIsolation` rests on.
- Restarts of the plugin between repeated deliveries of one call (`Delivery.AtLeastOnce`); what a
  restart does to later calls is in `Recovery` and `RestartBisimulation`.
- The daemon's arguments, environment, PID, recovery and read-only flags, and `getBinaryPath`.
- Failures of mkdir, remove, mount, bind and unmount have no effect on the host; parent directories
  made by MkdirAll are part of its outcome.
- Another error than absence from the look at the link counts as the link being absent, and no time
  passes between setting the wait's deadline and the first look.
- A request without an access mode, which the code dereferences unchecked.
- The value a failed UUID parse leaves behind, here None; `Uuid.Parse` follows the text forms that
  github.com/google/uuid v1.6.0 accepts, whose source is not part of this model.
- The branches for "not exist" errors after Unmount in the handlers, which Unmount never returns.
- Placement parameters of CreateVolume (failure domain, entity, PFS), the volume context it returns
  and the message texts of errors, except as the retry examines them.
- The control plane and login service beyond one request at a time: a request is served, lost after
  it took effect, or refused; which device a name resolves to is the control plane's choice.
- Rollback of created directories: a failed stage may leave its empty staging directory.
- Mutexes of the configuration manager, and ListVolumes' own retry: recovery takes the list, or that
  there was none, as given.
- NodeGetVolumeStats, ListVolumes, GetCapacity, ControllerUnpublishVolume, ValidateVolumeCapabilities,
  capability lists, unimplemented calls and unused helpers: single-branch or without properties.
- gRPC serving, flags, signals, the identity service, Kubernetes access and logging.
