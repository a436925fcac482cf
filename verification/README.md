# Verification of netifd's core

This project models the parts of the network interface daemon netifd whose
correctness is hardest to see, and proves properties of the model in Dafny.

- **Sub-prefix allocator** (`bits`, `prefix_list`, `prefix_rebuild`,
  `prefix_packing`, `prefix_assign`, `prefix_address`): aligned power-of-two blocks
  of a delegated IPv6 prefix, with hints, an excluded block, first fit, largest
  first and retrying one size smaller; the loops run on 32-bit integers.
- **Address masks** (`if_addr`): the byte loop and its bit-level meaning.
- **Checksum of the resolver file** (`registers`, `crc32`, `resolv_conf`): the
  table-driven loop against the bitwise CRC-32, error detection, and the decision
  to replace the file.
- **Interface and shell protocol** (`events`, `shell_interface`, `shell_safety`,
  `shell_runs`, `shell_scripts`, `shell_daemon`): two coupled state machines with
  two processes and two timers; safety over all runs, the end of every teardown,
  and which setup scripts get theirs.
- **Hotplug queue** (`hotplug_queue`) and its composition with any number of
  interfaces (`hotplug_system`).
- **Device claims** (`device_claim`, `device_atomicity`, `device_runs`,
  `device_links`, `device_table`) and **bridges** (`bridge`, `bridge_runs`, `bridge_daemon`).
- **Routes** (`ip_routes`, `ip_settings`) and **wireless retries** (`wireless`,
  `wireless_retries`).

Each part has a specification on values, made of functions on one state datatype;
the classes `DevicePrefix`, `CrcTable`, `ResolverFiles`, `EventQueue`, `Interface`,
`ProtoShellState`, `Devices`, `BridgeState`, `Settings` and `WirelessDevice` carry
the same operations out step by step, as the C code does, and every method is
proved equal to its function. The lemmas about the functions are the results. The
classes that live through events have a method `Handle` that takes any input and is
proved to be one step of the model, so the theorems about runs hold of the classes.

What the daemon cannot choose is a parameter: whether the k-th process can be
started, what the k-th driver or kernel call returns, what attaching a protocol
finds. Runs are histories of inputs in any order. Callbacks to other users of an
interface or device are taken not to come back to the same object before the step
that caused them has ended.

Where the code does not do what one might expect, a lemma says exactly when, and
another gives a run or an input: `CmpCyclesIff` and `CmpIsAntisymmetricIff` with
`CmpCanCycle`; `BurstDetected` with `FiveByteChangeMissed`; `EnqueuedOutcome` with
`UpdateAfterDownLosesDown`; `FreedMeansDeliveredIff` with `FreeLosesDown`;
`SetupAskedIff` with `FailedStartStalls`; `SetupsAreTornDownIff` with
`RemovalSkipsTeardown`; `RemovalWaitsIff`; `MoveHoldsIff` with `MoveLetsGo`;
`RestartHoldsIff` and `RestartKeeps` with a `RestartLetsGo` each; `LateRetryIff` with
`LateRetryHappens`; `AppendKeepsOthersIff`, `ReplaceKeepsOthersIff`,
`SwitchKeepsOthersIff` and `DeleteKeepsOthersIff` with `MtuFlagOverwrites` and
`MtuFlagAliases`; `RetriesAreBoundedIff` with `TwiceHappens` and `BoundsAreReached`;
`TimerInvIff` with `LateState`; `StraysIff` with `RemovedTooLate`.

Ranges: prefix lengths 34 to 64, because the pool size is computed in an `int`;
interface lengths 48 to 64 and excluded lengths between the prefix length and 64,
as the code checks or the standard requires.

## Model

| member | source | states |
|---|---|---|
| `PrefixList.SearchExact` | interface-ip.c:829-851 | The search is complete: from any sorted list an automatic request gets the lowest free block aligned to its own size, and fails only if no such block is free; a hint at or above the current position is refused only if its block is not free. |
| `PrefixList.InsertKeeps` | interface-ip.c:841-847 | Putting a block where the search found room keeps the list strictly sorted, disjoint, aligned and inside the pool, with the sentinel last. |
| `PrefixList.ShrinkExact` | interface-ip.c:976-992 | Retrying one size smaller ends with the largest size not above the one asked for that has a free aligned block, at the lowest place; a request is dropped if and only if not a single /64 is free. |
| `PrefixList.NoFreeSmaller` | interface-ip.c:983-992 | A size with a free block has one for every smaller size, so giving up means nothing is free. |
| `PrefixRebuild.CmpIsStrictTotalOrder` | interface-ip.c:859-870 | The comparison of waiting requests is a strict total order up to equal names, as long as no difference of two weights overflows. |
| `PrefixRebuild.CmpIsAntisymmetricIff` | interface-ip.c:859-870 | Two entries disagree about which comes first exactly if they have one size and weights 2^31 apart. |
| `PrefixRebuild.CmpCyclesIff` | interface-ip.c:859-870 | Three entries of one size by falling weight, equal ones included, come in a circle exactly if the outer difference reaches 2^31 and neither inner step goes against the comparison without overflow; the other way round exactly if it is 2^31 and two of equal weight stand against their names. |
| `PrefixRebuild.CmpCanCycle` | interface-ip.c:859-870 | Such weights exist: three entries that come each before the next. |
| `PrefixRebuild.InsertLaterKeepsOrder` | interface-ip.c:859-870 | Whatever the weights, the tree keeps larger blocks first. |
| `PrefixRebuild.InsertLaterContents` | interface-ip.c:949-972 | A request with a new name is taken into the tree and nothing is lost. |
| `PrefixRebuild.ExcludedInPool` | interface-ip.c:884-911 | The excluded block lies inside the pool, aligned to its size (section 4.2 of RFC 6603). |
| `PrefixRebuild.HintHonoured` | interface-ip.c:949-972 | A hinted request is served at its hint if and only if its block lies in the pool and meets no block there; otherwise the list is unchanged and the request waits for the automatic pass. |
| `PrefixRebuild.HintStepKeeps` | interface-ip.c:913-972 | One interface of the first pass keeps the list invariant and every earlier grant, and the interface itself is served or waiting. |
| `PrefixRebuild.LaterPassServes` | interface-ip.c:976-995 | The second pass keeps the list invariant and serves every waiting request unless the pool is full. |
| `PrefixRebuild.RebuildCorrect` | interface-ip.c:872-1004 | After a rebuild the list is sorted, disjoint, aligned and inside the pool, and every eligible interface holds a block or not a single /64 is free. |
| `PrefixRebuild.RebuildGivesOneEach` | interface-ip.c:872-1004 | A rebuild hands out at most one block per eligible interface. |
| `PrefixPacking.PlaceOnPacked` | interface-ip.c:829-851 | On a list without gaps a request whose size divides the used part goes right behind it, if it fits. |
| `PrefixPacking.LaterPassPacks` | interface-ip.c:976-995 | First fit in tree order computes the reference packing. |
| `PrefixPacking.MissMeetsFull` | interface-ip.c:976-995 | Served by size, requests no larger than the pool leave no gap too small to use: when one misses, everything is taken. |
| `PrefixPacking.HintPassOrders` | interface-ip.c:859-870 | After the first pass, with hints or without, the tree is strictly ordered by the comparison, if no difference of two weights overflows. |
| `PrefixPacking.PackingTheorem` | interface-ip.c:872-1004 | Without hints and exclusion the used space is exactly [0, min(pool, total)): nothing is wasted, every request whose running total fits has its full length right behind the earlier ones, and all have if the total fits; if none is larger than the pool, the first that does not fit meets a pool that is exactly full. The requests are served in the order of the comparison. |
| `PrefixAssign.WellFormedFits32` | interface-ip.c:829-851 | For prefix lengths from 34 on, every bound the search computes with fits a signed 32-bit integer. |
| `PrefixAssign.HintNeverOverflows` | interface-ip.c:834-838 | A masked hint leaves room for its own block below 2^31. |
| `PrefixAssign.DevicePrefix.FindPlace` | interface-ip.c:829-840 | The loop over the list, in 32-bit arithmetic that cannot overflow, finds what the search specifies. |
| `PrefixAssign.DevicePrefix.InterfacePrefixAssign` | interface-ip.c:829-851 | Inserts the request at the place found and stores its position, or changes nothing. |
| `PrefixAssign.DevicePrefix.AvlInsert` | interface-ip.c:859-870 | Inserting into the tree of waiting requests, in order, duplicates refused. |
| `PrefixAssign.DevicePrefix.AddInterface` | interface-ip.c:913-972 | One interface of the first pass, with eligibility, hint and fall-back, in place. |
| `PrefixAssign.DevicePrefix.AssignLater` | interface-ip.c:976-992 | Shrinks and retries one waiting request until it is placed or given up. |
| `PrefixAssign.DevicePrefix.HintedPass` | interface-ip.c:913-973 | The first pass over all interfaces. |
| `PrefixAssign.DevicePrefix.EmptyTree` | interface-ip.c:974-995 | The second pass, emptying the tree. |
| `PrefixAssign.DevicePrefix.UpdatePrefixAssignments` | interface-ip.c:872-1004 | The whole rebuild: an empty list when the prefix goes, else the list the passes specify. |
| `PrefixAddress.HintIsAligned` | interface.c:841-844 | The hint stored at allocation is a 32-bit value aligned to the size of the interface block, and equals the mark for no hint only for length 64. |
| `PrefixAddress.SubPrefixRange` | interface-ip.c:763-772 | Or-ing the position into word 1 of a delegated prefix gives exactly the networks of that block. |
| `PrefixAddress.SubPrefixesDisjoint` | interface-ip.c:763-772 | Every sub-prefix lies inside the delegated prefix and two of them share no address. |
| `IfAddr.ClearIfAddr` | interface-ip.c:73-84 | In place, exactly the first mask bits of the 16 bytes are kept, for every mask from 0 to 128. |
| `IfAddr.MatchIfAddr` | interface-ip.c:86-100 | True if and only if the two addresses agree on their first mask bits; both stay as they are. |
| `IfAddr.ClearTwice` | interface-ip.c:73-84 | Masking twice is masking once with the shorter mask; there is only one masked form. |
| `IfAddr.MatchIsEquivalence` | interface-ip.c:86-100 | At a fixed mask matching is an equivalence, a match implies one at every shorter mask, and at 128 it is equality. |
| `IfAddr.ClearedByBytes` | interface-ip.c:76-83 | Zeroing from byte m on and clearing the tail of byte m - 1 leaves the first mask bits. |
| `Crc32.ByteStepIsBitwise` | utils.c:156-171 | One table lookup feeds the eight bits of a byte into the shift register, lowest first (section 8 of RFC 1952). |
| `Crc32.TableFormIsCrc` | utils.c:156-174 | The table form equals the bit-by-bit reflected CRC-32 for all data. |
| `Crc32.ByteStepIsInjective` | utils.c:171 | A step is injective on registers, whatever the byte. |
| `Crc32.BurstDetected` | utils.c:150-175 | Two files of equal length that differ only within four consecutive bytes have different checksums. |
| `ResolvConf.CrcTable.EightSteps` | utils.c:157-160 | The inner loop computes a table entry. |
| `ResolvConf.CrcTable.Fill` | utils.c:156-162 | The table holds all 256 entries. |
| `ResolvConf.CrcTable.BuildTable` | utils.c:153-163 | The table is built once and kept. |
| `ResolvConf.CrcTable.LookUp` | utils.c:171 | One lookup is one step of the table form. |
| `ResolvConf.CrcTable.Feed` | utils.c:170-171 | The byte loop folds the step over a buffer. |
| `ResolvConf.File.Fread` | utils.c:169 | Reads hand out what is left, short only at the end. |
| `ResolvConf.CrcTable.FeedFile` | utils.c:165-172 | The loop over reads covers the whole file, exact multiples of the buffer size included. |
| `ResolvConf.CrcTable.Crc32File` | utils.c:150-175 | The result is the CRC of all bytes of the file. |
| `ResolvConf.ResolverFiles.WriteResolvConf` | interface-ip.c:1304-1338 | The new file is installed, dropped or left out depending on the checksums and the system calls; no temporary file stays behind. |
| `ResolvConf.ResolverFiles.Settle` | interface-ip.c:1331-1336 | Equal checksums drop the new file; else it replaces the old one if the rename works. |
| `ResolvConf.UpToDateIff` | interface-ip.c:1322-1337 | The file is up to date afterwards exactly if it already was, or the rename worked and no different content with the same checksum was there. |
| `ResolvConf.BurstInstalled` | interface-ip.c:1322-1337 | A change confined to four consecutive bytes always reaches the file. |
| `ResolvConf.FiveByteChangeMissed` | interface-ip.c:1331-1332 | Four bytes is the limit: a concrete five-byte change has the same checksum and is not installed. |
| `Events.ActiveIffEndsUp` | interface.c:226-248 | In a well-ordered history the last of UP and DOWN tells whether the interface is active. |
| `Events.Alternates` | interface.c:226-248 | UP and DOWN alternate starting with UP, updates and link events lie in between, nothing follows FREE. |
| `HotplugQueue.EventQueue.RunCmd` | interface-event.c:42-80 | A process is started only while none runs; if it cannot be started the call counts as completed. |
| `HotplugQueue.EventQueue.CallHotplug` | interface-event.c:82-99 | The first waiting interface is handed out with its merged event. |
| `HotplugQueue.EventQueue.TaskComplete` | interface-event.c:101-108 | Completion clears the current interface and hands out the next; with RunCmd and CallHotplug it ends because each round shortens the queue. |
| `HotplugQueue.EventQueue.ProcessExit` | interface-event.c:101-108 | The end of the running process, as the event loop reports it. |
| `HotplugQueue.EventQueue.QueueEvent` | interface-event.c:117-176 | An event is merged, dropped or queued as the branches say, and a call is made if nothing runs. |
| `HotplugQueue.EventQueue.DequeueEvent` | interface-event.c:178-186 | A freed interface leaves the queue and is no longer current. |
| `HotplugQueue.EventQueue.InterfaceEventCb` | interface-event.c:188-208 | Every event goes where the callback sends it, and the queue invariant holds afterwards. |
| `HotplugQueue.EventQueue.Handle` | interface-event.c:101-208 | Events and process exits in place: every run of the daemon is a run of the model and keeps the queue invariant. |
| `HotplugQueue.NextCall` | interface-event.c:42-108 | Whatever fails, the result is well formed, shorter if it was not empty, and no call appears or disappears. |
| `HotplugQueue.EnqueuedOutcome` | interface-event.c:117-176 | Queueing an event gives its interface the right outcome exactly if the event is not an update replacing a waiting DOWN of an interface last handed out as UP; no other interface is affected. |
| `HotplugQueue.NextCallKeepsOutcome` | interface-event.c:82-108 | Handing out calls changes no outcome. |
| `HotplugQueue.CoalescingKeepsOutcome` | interface-event.c:82-186 | For any run in which each interface keeps the order of events, the last UP or DOWN that is or will be handed out for it is the last it emitted. |
| `HotplugQueue.DrainedMeansDelivered` | interface-event.c:82-186 | Once an interface that still exists waits no more, the last UP or DOWN handed out for it is the last it emitted. |
| `HotplugQueue.Drains` | interface-event.c:82-108 | The queue does not stall: as many process exits as interfaces waiting empty it. |
| `HotplugQueue.CallsAreQueued` | interface-event.c:82-176 | Calls made and interfaces waiting never exceed the events queued. |
| `HotplugQueue.UpdateAfterDownLosesDown` | interface-event.c:153-160 | Out of order, a DOWN followed by an UPDATE is handed out as an update only. |
| `HotplugQueue.DequeuedOutcome` | interface-event.c:178-186 | Freeing an interface changes what will have been handed out last exactly if a waiting UP or DOWN would have changed it. |
| `HotplugQueue.FreedMeansDeliveredIff` | interface-event.c:178-186 | For an interface that was freed, over every run in order, the last UP or DOWN handed out is the last it emitted exactly if no DOWN was waiting after a handed-out UP when FREE came. |
| `HotplugQueue.FreeLosesDown` | interface-event.c:178-186 | Such a run exists: the free takes the waiting DOWN along. |
| `HotplugSystem.HotplugMatchesState` | interface-event.c:82-186 | For any number of interfaces in any interleaving with hotplug exits: when nothing waits for an interface, the last ifup or ifdown handed out says whether it is up. |
| `HotplugSystem.HotplugWillMatchState` | interface-event.c:82-186 | The same for what is still waiting. |
| `HotplugSystem.FreedHotplugIff` | interface-event.c:82-186 | For an interface that is gone, the last call handed out is still its ifup exactly if its ifdown was waiting when it was freed. |
| `HotplugSystem.FedInOrder` | interface.c:226-248 | What the interfaces feed into the queue keeps the order of events the queue relies on. |
| `ShellSafety.TeardownKeeps` | proto-shell.c:195-230 | After a teardown command the protocol is aborting or tearing down with its timer armed, whether or not the script starts. |
| `ShellSafety.CheckStateKeeps` | interface.c:318-341 | Checking the state keeps the invariant of interface and protocol. |
| `ShellSafety.SetUpKeeps` | interface.c:1038-1063 | So does a set-up. |
| `ShellSafety.SetDownKeeps` | interface.c:278-301 | So does a set-down, after which an interface that was up or setting up is in teardown. |
| `ShellSafety.SetAvailableKeeps` | interface.c:429-443 | So does a change of availability. |
| `ShellSafety.HandleConfigChangeKeeps` | interface.c:670-690 | A postponed reload or removal is carried out, the invariant holds afterwards, and the scripts show whether a set-up was abandoned. |
| `ShellSafety.ProtoDownKeeps` | interface.c:716-727 | The DOWN report of the protocol brings the interface down and carries out what was postponed. |
| `ShellSafety.TaskFinishKeeps` | proto-shell.c:291-352 | The end of a process or of waiting keeps the invariant and never puts off the end of a teardown. |
| `ShellSafety.TeardownTimeoutKeeps` | proto-shell.c:354-364 | A timer fire reports DOWN or brings the end one stage closer. |
| `ShellSafety.UpdateLinkKeeps` | proto-shell.c:486-570 | A link notification keeps the invariant; it is refused while something is being ended. |
| `ShellRuns.StepKeeps` | interface.c:318-741 | Every command, device event, process end, timer and notification keeps the invariant, none puts off the end of a teardown, and a started setup script is abandoned exactly by a removal or reload of an interface that is down. |
| `ShellRuns.ReachableStates` | proto-shell.c:157-364 | In every reachable state the teardown timer is armed exactly while aborting or tearing down, IFS_TEARDOWN implies one of these, and a postponed change implies IFS_TEARDOWN. |
| `ShellRuns.EventDiscipline` | interface.c:259-316 | Over every run UP and DOWN alternate starting with UP, UPDATE and LINK_UP occur only in between, RELOAD and FREE only while down, and FREE ends the interface. |
| `ShellRuns.UpIffLastEventUp` | interface.c:692-756 | An interface is up exactly if its last UP or DOWN was UP. |
| `ShellRuns.TeardownEnds` | proto-shell.c:323-364 | After at most two timer fires, whatever the children do, the protocol has reported DOWN or was let go of because the interface was already down. |
| `ShellRuns.DownFollows` | interface.c:278-301 | An interface in teardown gets its DOWN within two timer fires. |
| `ShellRuns.RemovalCompletes` | interface.c:1090-1098 | A removed interface is gone within two timer fires, unless a change of configuration makes it reload. |
| `ShellRuns.RemovalWaitsIff` | interface.c:1090-1098 | A postponed removal stays postponed until the interface is gone, exactly unless a change of configuration makes it reload instead. |
| `ShellRuns.SetupAskedIff` | proto-shell.c:173-190 | A set-up asks for the setup script exactly if the protocol is idle. |
| `ShellRuns.FailedStartStalls` | interface.c:303-316 | If the setup script cannot be started, the next set-up starts nothing and leaves the interface waiting. |
| `ShellScripts.SetupsAlternate` | proto-shell.c:173-230 | Over the whole life of an interface a setup script is asked for only when the last one that was started has had its teardown asked for, or went with its protocol. |
| `ShellScripts.AbandonsIff` | interface.c:670-690 | A step lets go of a protocol with its setup script not torn down exactly if it removes or reloads an interface that is down with its last setup script started and not torn down; the protocol then is in S_SETUP_ABORT. |
| `ShellScripts.SetupsAreTornDownIff` | proto-shell.c:173-230 | Over every run, through reloads and removals, every started setup script has its teardown asked for before the next setup and before its protocol goes, exactly if no such step was taken. |
| `ShellScripts.RemovalSkipsTeardown` | proto-shell.c:388-401 | It happens: the device is disabled during the set-up and the interface removed before the script has ended. |
| `ShellDaemon.ProtoShellState.RunScript` | main.c:146-204 | Starting a script kills the one in its slot; the outcome says whether it runs. |
| `ShellDaemon.ProtoShellState.ProtoShellHandler` | proto-shell.c:157-254 | The handler for setup, renew and teardown in every state. |
| `ShellDaemon.ProtoShellState.ScriptFinished` | proto-shell.c:304-321 | The end of a script while nothing is being ended: renew, teardown or the checkup timer. |
| `ShellDaemon.ProtoShellState.ProtoShellRunCommand` | proto-shell.c:599-623 | The daemon is started unless something is being ended. |
| `ShellDaemon.Interface.MarkInterfaceDown` | interface.c:259-276 | Down from any state, with an event only if the interface was up. |
| `ShellDaemon.Interface.InterfaceSetDown` | interface.c:278-301 | Teardown from UP and SETUP, nothing otherwise. |
| `ShellDaemon.Interface.BeginSetUp` | interface.c:303-316 | Set-up of the protocol, undone if it fails. |
| `ShellDaemon.Interface.InterfaceCheckState` | interface.c:318-341 | Down when disabled or without link, set-up when everything is there. |
| `ShellDaemon.Interface.InterfaceSetEnabled` | interface.c:343-352 | Changes the flag and checks the state. |
| `ShellDaemon.Interface.InterfaceSetLinkState` | interface.c:354-368 | Changes the flag, checks the state and reports a late link once. |
| `ShellDaemon.Interface.InterfaceSetUp` | interface.c:1038-1063 | Set-up on command, with the claim of the main device. |
| `ShellDaemon.Interface.ClaimMainDevice` | interface.c:1049-1057 | The claim of the main device, after which the state is checked. |
| `ShellDaemon.Interface.InterfaceSetAvailable` | interface.c:429-443 | Set-up or forced set-down when availability changes. |
| `ShellDaemon.Interface.InterfaceSetMainDev` | interface.c:938-960 | Another main device withdraws the interface first, none takes its link as well; the same one changes nothing. |
| `ShellDaemon.Interface.InterfaceDoReload` | interface.c:661-668 | The protocol is freed with its processes and timers and attached anew. |
| `ShellDaemon.Interface.InterfaceDoFree` | interface.c:650-659 | The interface is cleaned up and gone. |
| `ShellDaemon.Interface.InterfaceHandleConfigChange` | interface.c:670-690 | Reload, removal or neither, then set-up or removal of a dynamic interface; the recursion ends. |
| `ShellDaemon.Interface.SetConfigurationState` | interface.c:1090-1098 | A change is handled at once when down, else after a set-down. |
| `ShellDaemon.Interface.OnProtoUp` | interface.c:698-714 | UP from set-up, an update when already up. |
| `ShellDaemon.Interface.OnProtoDown` | interface.c:716-727 | DOWN unless already down, then the postponed change. |
| `ShellDaemon.Interface.OnProtoLinkLost` | interface.c:728-735 | Back to set-up when the connection is lost. |
| `ShellDaemon.Interface.ProtoShellTaskFinish` | proto-shell.c:291-352 | The reaction to the end of the script, the daemon or the wait, in every state. |
| `ShellDaemon.Interface.ActiveTaskFinish` | proto-shell.c:297-321 | The reaction while nothing is being ended. |
| `ShellDaemon.Interface.EndingTaskFinish` | proto-shell.c:323-351 | The reaction while aborting or tearing down, once both processes have ended. |
| `ShellDaemon.Interface.ProtoShellScriptCb` | proto-shell.c:366-373 | The end of the script. |
| `ShellDaemon.Interface.ProtoShellTaskCb` | proto-shell.c:375-386 | The end of the daemon. |
| `ShellDaemon.Interface.ProtoShellTeardownTimeout` | proto-shell.c:354-364 | Both processes are killed and the task is finished. |
| `ShellDaemon.Interface.ProtoShellCheckupTimeout` | proto-shell.c:791-808 | An interface that is wanted but not up is torn down. |
| `ShellDaemon.Interface.ProtoShellUpdateLink` | proto-shell.c:486-570 | The link notification: refused, lost, failed or up. |
| `ShellDaemon.Interface.ProtoShellSetupFailed` | proto-shell.c:736-755 | The failure notification. |
| `ShellDaemon.Interface.ProtoShellDependencyDown` | proto-shell.c:269-289 | A dependency that goes down tears down an idle protocol. |
| `ShellDaemon.Interface.InterfaceParseData` | interface.c:207-224 | Data set from outside: an update of an interface that is up, if something changed. |
| `ShellDaemon.Interface.InterfaceChangeConfig` | interface.c:1152-1242 | Which changes reload the interface and which only check its state. |
| `ShellDaemon.Interface.InterfaceDown` | interface.c:1065-1077 | Set-down of one interface or of all; autostart goes off for one. |
| `ShellDaemon.Interface.StartPending` | interface.c:1079-1088 | Set-up of what is available and wanted. |
| `ShellDaemon.Interface.HandleCommand` | interface.c:318-443 | Commands and device events in place. |
| `ShellDaemon.Interface.HandleExit` | proto-shell.c:291-386 | Process ends and timers in place. |
| `ShellDaemon.Interface.Handle` | interface.c:318-741 | Whatever comes in: every run of the daemon is a run of the model, so all that is proved about runs holds of it; each step keeps the invariant and the progress of a teardown. |
| `DeviceClaim.ReleaseKeeps` | device.c:451-474 | A release keeps every count equal to the number of claimed users, touches only the stack below, and leaves the user unclaimed. |
| `DeviceAtomicity.ReleaseFrame` | device.c:451-474 | A release changes nothing outside the stack below the user. |
| `DeviceAtomicity.ReleaseAgrees` | device.c:451-474 | A release depends on nothing outside that stack. |
| `DeviceAtomicity.ClaimFrame` | device.c:412-449 | A claim changes nothing outside the stack below the user. |
| `DeviceAtomicity.ClaimIsAtomic` | device.c:412-449 | On stacks of any depth a claim that fails leaves every count and flag as before, and a release after one that succeeds restores them, whichever driver call fails. |
| `DeviceAtomicity.SetUpIsAtomic` | vlan.c:39-62 | Setting up a stacked device rolls back the claim below whenever it fails. |
| `DeviceAtomicity.ClaimKeeps` | device.c:412-449 | A claim keeps every count equal to the number of claimed users. |
| `DeviceRuns.ClaimHolds` | macvlan.c:90-114 | After every claim, whatever the drivers return, an active stacked device has claimed the one below. |
| `DeviceRuns.ReleaseHolds` | macvlan.c:80-88 | And after every release. |
| `DeviceRuns.CountsAreRight` | device.c:412-474 | In every state reached by claims, releases, moves and removals of users and restarts, active is the number of claimed users of each device, so it is never negative. |
| `DeviceRuns.MoveKeeps` | device.c:717-768 | Moving a user to another device, or taking it off, releases its claim and keeps the counts right. |
| `DeviceRuns.ActiveStacksHold` | macvlan.c:80-114 | Over every run in which no stacked device is moved and no restart fails, a stacked device has claimed the one below exactly while it is active. |
| `DeviceRuns.MoveHoldsIff` | device.c:867-883 | Moving what a stacked device stands on keeps this exactly if the stacked device is not active: the move releases and does not claim again. |
| `DeviceRuns.MoveLetsGo` | device.c:867-883 | It happens after one claim of a VLAN. |
| `DeviceRuns.RestartHoldsIff` | device.c:843-853 | A restart keeps the counts right in any case, and keeps active stacked devices holding what they stand on exactly if its second half does not fail. |
| `DeviceRuns.RestartLetsGo` | device.c:843-853 | It happens after one claim of a VLAN whose link then cannot be made again. |
| `DeviceLinks.SetUpLinks` | vlan.c:39-62 | Setting up a stacked device touches no link above the device below but its own, which is there if it works; if it fails it is not there unless it was before. |
| `DeviceLinks.ClaimLinkIff` | vlan.c:52-61 | The first claim on a stacked device without a link leaves it with one exactly if the claim works, VLAN or MAC-VLAN. |
| `DeviceLinks.FailedClaimChangesNothing` | device.c:412-449 | A claim that fails changes nothing at all, at any depth: no count, no claimed flag and no link of a stacked device. |
| `DeviceLinks.RestartLinksIff` | device.c:843-853 | A restart keeps links and activity together exactly if it does not fail. |
| `DeviceLinks.LinksAreRight` | macvlan.c:80-114 | In every state reached without a failed restart a stacked device has its link in the kernel exactly while it is active. |
| `DeviceTable.Devices.ClaimDevice` | device.c:412-449 | The claim in place, in any state with right counts. |
| `DeviceTable.Devices.SetStateUp` | device.c:425-438 | Dispatch on the kind of device. |
| `DeviceTable.Devices.VlanUp` | vlan.c:52-61 | Claim below, add the link whatever comes of it, bring up what has a link, release below on failure. |
| `DeviceTable.Devices.AddVlan` | vlan.c:56-57 | The outcome of adding the link is not looked at; bringing it up works exactly if the link exists. |
| `DeviceTable.Devices.Resolve` | device.c:114-123 | What is brought up must have a link of its name. |
| `DeviceTable.Devices.MacVlanUp` | macvlan.c:90-99 | Claim below, then the two later stages. |
| `DeviceTable.Devices.MacVlanLink` | macvlan.c:99-101 | Add the link or release below. |
| `DeviceTable.Devices.MacVlanFinish` | macvlan.c:103-113 | Bring up, or delete the link and release below. |
| `DeviceTable.Devices.ReleaseDevice` | device.c:451-474 | The release in place; the asserted non-negative count is proved at every depth. |
| `DeviceTable.Devices.SetStateDown` | macvlan.c:80-88 | Delete the link and release below. |
| `DeviceTable.Devices.AddUser` | device.c:717-730 | A user that comes to another device gives back its claim first. |
| `DeviceTable.Devices.RemoveUser` | device.c:752-768 | A user that goes gives back its claim. |
| `DeviceTable.Devices.RestartDevice` | device.c:843-853 | An active device on new settings is taken down and set up again. |
| `DeviceTable.Devices.Handle` | device.c:412-768 | Claims, releases, moves, removals and restarts in place: every run of the daemon is a run of the model, with right counts. |
| `BridgeRuns.EnableMemberKeeps` | bridge.c:192-233 | Enabling leaves a present member claimed and present, or absent and counted down; the others stay as they are. |
| `BridgeRuns.RemoveMemberKeeps` | bridge.c:235-258 | Removing keeps the counter right and the claim only if the bridge was not up. |
| `BridgeRuns.FreeMemberKeeps` | bridge.c:260-281 | Freeing keeps the counter right for the members that remain. |
| `BridgeRuns.MemberAddKeeps` | bridge.c:298-314 | A device that comes keeps the counter right. |
| `BridgeRuns.FinishSetUpKeeps` | bridge.c:361-380 | A set-up keeps the counter right; if nothing was claimed before, exactly the present members are claimed afterwards, or none if it failed. |
| `BridgeRuns.RefreshKeeps` | device.c:607-625 | Presence changes reach the member only when the assertion on ADD holds, and keep the counter right. |
| `BridgeRuns.StepKeeps` | bridge.c:292-394 | Every step keeps the counter, the backing of present members and the presence of the bridge. |
| `BridgeRuns.CounterIsRight` | bridge.c:292-331 | In every reachable state n_present is the number of members marked present, and each of those has a present device on a bridge that is present. |
| `BridgeRuns.ClaimsFollowPresence` | bridge.c:348-381 | If the retry timer never runs out while the bridge is down and no restart fails with members, exactly the present members of a bridge that is up are claimed and none of one that is down. |
| `BridgeRuns.LateRetryIff` | bridge.c:691-709 | On a bridge that is down the retry timer is harmless, whatever the system calls return, exactly if no member is marked absent while its device is present. |
| `BridgeRuns.LateRetryHappens` | bridge.c:333-381 | Such a state is reached: the only member could not be claimed, the set-up failed and the retry claims the member for a bridge that is down. |
| `BridgeRuns.RestartKeeps` | device.c:843-853 | New settings for an active bridge keep the counter right, and claims follow presence exactly if the set-up does not fail with members present, which it lets go of while the bridge stays active. |
| `BridgeRuns.RestartLetsGo` | device.c:843-853 | It happens: the last call of the set-up fails. |
| `BridgeDaemon.BridgeState.EnableBridgeInterface` | bridge.c:166-180 | Creates the kernel bridge unless it exists. |
| `BridgeDaemon.BridgeState.ClaimOne` | bridge.c:211-213 | The claim of a member that holds none yet. |
| `BridgeDaemon.BridgeState.FailMember` | bridge.c:226-232 | The error path of enabling. |
| `BridgeDaemon.BridgeState.BridgeJoinMember` | bridge.c:211-224 | Claim and add to the kernel bridge, or fail. |
| `BridgeDaemon.BridgeState.BridgeEnableMember` | bridge.c:192-233 | Enabling a member in place. |
| `BridgeDaemon.BridgeState.BridgeDisableMember` | bridge.c:150-164 | Disabling a member in place. |
| `BridgeDaemon.BridgeState.BridgeRemoveMember` | bridge.c:235-258 | Removing a member in place. |
| `BridgeDaemon.BridgeState.BridgeFreeMember` | bridge.c:260-281 | Freeing a member. |
| `BridgeDaemon.BridgeState.MemberAdded` | bridge.c:298-314 | The ADD callback; its assertion is the requirement. |
| `BridgeDaemon.BridgeState.MemberRemoved` | bridge.c:315-325 | The REMOVE callback, for hotplug members and others. |
| `BridgeDaemon.BridgeState.BridgeSetDown` | bridge.c:333-346 | The loop that disables every member. |
| `BridgeDaemon.BridgeState.EnableMembers` | bridge.c:361-364 | The loop that enables every member and the retry timer. |
| `BridgeDaemon.BridgeState.BridgeCheckRetry` | bridge.c:283-290 | The timer is armed if a member failed, after enabling them and after a configuration. |
| `BridgeDaemon.BridgeState.ApplyConfig` | device.c:843-853 | An active bridge is hidden, taken down, set up and shown again if that works. |
| `BridgeDaemon.BridgeState.BridgeSetUp` | bridge.c:348-381 | Set-up with all its failures. |
| `BridgeDaemon.BridgeState.BridgeRetryMembers` | bridge.c:691-709 | The loop that retries absent members. |
| `BridgeDaemon.BridgeState.RetryOne` | bridge.c:697-708 | One member of that loop. |
| `BridgeDaemon.BridgeState.RefreshPresent` | device.c:607-625 | Tells the member when the presence of its device changes. |
| `BridgeDaemon.BridgeState.SetPresent` | device.c:627-635 | Presence reported by the system. |
| `BridgeDaemon.BridgeState.SetDisabled` | device.h:288-293 | A device that is disabled is gone for its users. |
| `BridgeDaemon.BridgeState.SetDeferred` | device.h:281-286 | And so is one that is deferred. |
| `BridgeDaemon.BridgeState.CreateMember` | bridge.c:396-447 | A device becomes a member once. |
| `BridgeDaemon.BridgeState.RemoveByName` | bridge.c:472-484 | A member is taken off the bridge. |
| `BridgeDaemon.BridgeState.Claim` | bridge.c:382-394 | The first claim on the bridge sets it up. |
| `BridgeDaemon.BridgeState.Release` | bridge.c:382-394 | The last release takes it down. |
| `BridgeDaemon.BridgeState.Handle` | bridge.c:150-484 | Whatever happens to the bridge: every run of the daemon is a run of the model, and the counter stays right. |
| `IpRoutes.ReplaceAtKeeps` | interface-ip.c:626-669 | Replacing a route keeps the ledger and its setting, and a kept route rightly needs no kernel call. |
| `IpRoutes.AppendKeeps` | interface-ip.c:626-669 | So does a new route, if the kernel can tell it from the others. |
| `IpRoutes.RemoveAtKeeps` | interface-ip.c:645-650 | So does a route that goes. |
| `IpRoutes.SwitchAtKeeps` | interface-ip.c:1381-1400 | Switching one route sets it as the settings say and keeps the ledger. |
| `IpRoutes.SetEnabledKeeps` | interface-ip.c:1340-1401 | After switching, every route of ours is enabled exactly as the settings say. |
| `IpRoutes.ExpireKeeps` | interface-ip.c:1493-1495 | Exactly the expired routes are deleted and the ledger is kept. |
| `IpRoutes.KernelMatchesTree` | interface-ip.c:617-669 | Over any run the kernel holds every route that is enabled, ours and not failed, with its attributes, and nothing that is disabled or gone; enabled always is what the settings say; provided no route is added that is, to the kernel, another one that is in the tree at that time. |
| `IpRoutes.DeleteKeepsOthersIff` | interface-ip.c:645-650 | Deleting a route keeps the kernel right about the others exactly if it was not there or none of them is the same to the kernel. |
| `IpRoutes.AppendKeepsOthersIff` | interface-ip.c:652-662 | Adding a route keeps the kernel right about the others exactly if it does not get there or those that are the same to the kernel are enabled and have its attributes. |
| `IpRoutes.ReplaceKeepsOthersIff` | interface-ip.c:626-669 | The same for a route that replaces one with its key, by what becomes of it. |
| `IpRoutes.SwitchKeepsOthersIff` | interface-ip.c:1381-1400 | The same for one turn of the loop that switches routes on and off. |
| `IpRoutes.MtuFlagOverwrites` | interface-ip.c:433-458 | Two routes that differ in the MTU flag and in their attributes: adding the second overwrites the first, which is enabled and not failed. |
| `IpRoutes.MtuFlagAliases` | interface-ip.c:433-458 | Two routes that differ only in the MTU flag are different in the tree and the same in the kernel: deleting one takes the other out. |
| `IpSettings.Settings.ReleaseOld` | interface-ip.c:645-650 | The old route leaves the kernel unless external, disabled or kept. |
| `IpSettings.Settings.TakeNew` | interface-ip.c:652-662 | The new route goes to the kernel unless external, disabled or kept; a failure is remembered. |
| `IpSettings.Settings.AddProtoRoute` | interface-ip.c:626-669 | The callback for a route that is new or replaces one with its key. |
| `IpSettings.Settings.DeleteProtoRoute` | interface-ip.c:645-650 | The callback for a route that is deleted. |
| `IpSettings.Settings.ExpireRoutes` | interface-ip.c:1493-1495 | The loop over routes whose time is over. |
| `IpSettings.Settings.Switch` | interface-ip.c:1381-1400 | One route of the loop that switches on and off. |
| `IpSettings.Settings.IpSetEnabled` | interface-ip.c:1340-1401 | The loop over all routes. |
| `IpSettings.Settings.ChangeNoDefaultroute` | interface.c:1208-1231 | A changed setting for default routes switches everything off and back to what it was. |
| `IpSettings.Settings.Handle` | interface-ip.c:617-669 | Additions, deletions, expiries and switches in place: every run of the daemon is a run of the model, and the ledger stays right. |
| `Wireless.CancelImpliesTimer` | wireless.c:234-243 | In every run, whatever comes in, a cancelled set-up has its timer armed, and an armed timer belongs to one or to a teardown; of a device worked on after it was freed nothing more is said. |
| `Wireless.StepKeeps` | wireless.c:285-450 | Every step keeps that. |
| `Wireless.TimerInvIff` | wireless.c:334-450 | The timer stays tied to a cancelled set-up, over one step of any kind, exactly unless the script of that set-up has ended and a NOTIFY_UP, a set-down or a change of configuration now ends the set-up. |
| `Wireless.StraysIff` | wireless.c:352-360 | A step works on the device after freeing it exactly if the timer runs out in teardown while a removal is postponed; never while the timer is tied to a cancelled set-up. |
| `Wireless.StrayedIff` | wireless.c:352-360 | So over every run. |
| `Wireless.LateState` | wireless.c:370-429 | From a new device: it is set up, a process dies and the script ends; now the set-up is cancelled, no script runs and the timer is armed. |
| `Wireless.RemovedTooLate` | wireless.c:334-360 | After any such run, a removal and the end of the timer free the device and work on it once more. |
| `WirelessRetries.DeviceStep` | wireless.c:334-429 | Whatever the device does, a step launches no more set-ups than it takes from what can still be launched: one for each retry, two if it may end in a late NOTIFY_UP, two more for a teardown with the timer armed. |
| `WirelessRetries.SetUpsAreBounded` | wireless.c:285-429 | From a set-up command on, in every reachable state and whatever the device does, at most two set-up handlers are launched for each retry and one more, or two if the timer was armed; without a late NOTIFY_UP one for each retry and one more, or two if the command met a teardown with the timer armed. |
| `WirelessRetries.RetriesAreBoundedIff` | wireless.c:352-429 | Without a late NOTIFY_UP at most retry + 1 set-up handlers are launched after the command, over all runs and outcomes, exactly if it did not meet a teardown with the timer armed in which nothing else keeps the device from being set up. |
| `WirelessRetries.BoundsAreReached` | wireless.c:402-429 | Set-ups that keep failing reach each of these bounds, round by round, with late NOTIFY_UPs and without. |
| `WirelessRetries.TwiceHappens` | wireless.c:431-437 | A set-down of a cancelled set-up whose script has ended is a run from a new device to such a teardown. |
| `Wireless.WirelessDevice.RunSetupHandler` | wireless.c:245-283 | Launches a handler. |
| `Wireless.WirelessDevice.WirelessTrySetUp` | wireless.c:285-304 | Set-up if every condition holds. |
| `Wireless.WirelessDevice.WirelessTryDown` | wireless.c:370-383 | Teardown, or cancelling while the script runs. |
| `Wireless.WirelessDevice.WirelessSetupCancel` | wireless.c:234-243 | Cancelling arms the timer once. |
| `Wireless.WirelessDevice.WdevHandleConfigChange` | wireless.c:316-332 | Set-up again or removal. |
| `Wireless.WirelessDevice.WirelessMarkDown` | wireless.c:334-350 | Down, timer cancelled, then the postponed change. |
| `Wireless.WirelessDevice.WirelessMarkUp` | wireless.c:385-400 | Up, unless cancelled. |
| `Wireless.WirelessDevice.WirelessRetrySetup` | wireless.c:402-412 | One retry fewer, then down. |
| `Wireless.WirelessDevice.ScriptTaskCb` | wireless.c:414-429 | The end of a handler. |
| `Wireless.WirelessDevice.WirelessSetupTimeout` | wireless.c:352-360 | The timer kills the script, reports it and marks the device down, also when the report has freed it. |
| `Wireless.WirelessDevice.WirelessDeviceSetUp` | wireless.c:362-368 | The set-up command: all retries again. |
| `Wireless.WirelessDevice.WirelessDeviceSetDown` | wireless.c:431-437 | The set-down command. |
| `Wireless.WirelessDevice.WdevSetConfigState` | wireless.c:439-450 | A change is handled at once when down, else after a set-down; a second one is ignored. |
| `Wireless.WirelessDevice.WdevChangeConfig` | wireless.c:462-480 | Another configuration clears the failure flag and reloads. |
| `Wireless.WirelessDevice.WirelessDeviceSetRetry` | wireless.c:915-929 | The number of retries set from outside. |
| `Wireless.WirelessDevice.Handle` | wireless.c:285-450 | Whatever comes in: every run of the daemon is a run of the model, and a cancelled set-up keeps its timer. |

## Left out

- Configuration parsing, ubus, netlink and ioctl plumbing, scripts and logging: calls into the system are parameters.
- Objects and pointers: list entries, devices, users, members and routes are values in lists and tables of one object, so aliasing between records is not modelled; the order of a tree is modelled where a result depends on it (waiting prefix requests), elsewhere lists grow at the end.
- Re-entrant callbacks: an event that changes the same object before the step that caused it has ended is modelled as a later step.
- PrefixRebuild.CmpIsStrictTotalOrder: the subtraction of weights is taken modulo 2^32, since C leaves its overflow undefined.
- The trees and timers of libubox: a sorted list with duplicates refused, and a flag per timer.
- ShellRuns.TeardownEnds: counts timer fires, not seconds, and takes a fire to kill both processes, as SIGKILL does.
- ShellDaemon.Interface.InterfaceSetMainDev: the layer 3 device is not modelled, so neither is its claim.
- ShellDaemon.Interface.InterfaceDoReload: what claiming the device finds is one input record; a set-up begun while the device is being claimed is modelled as the one that follows the reload.
- ShellDaemon.Interface.InterfaceDoFree: the original ends with no protocol; here a fresh one that is never used again stands for it.
- ShellDaemon.Interface.InterfaceChangeConfig: whether the two configurations differ in what calls for a reload is an input, apart from the autostart setting.
- ShellDaemon.Interface.ProtoShellUpdateLink: looking up the device of a notification and claiming it is one outcome, since both failures leave the interface as it is.
- ShellDaemon.Interface.InterfaceSetDown: the release of the main device of an interface that is down, and its claim in a set-up beyond its outcome, are in the device part only.
- Host dependencies: which interface a dependency finds; their effect is an input (available or not, dependency down).
- The signal sent to a daemon and the flag that remembers it, the error code passed to the teardown script, tunnels and the data of notifications.
- Alias interfaces, external devices and layer 3 devices that differ from the main device, except that their link loss may tear down the protocol.
- HotplugQueue.DrainedMeansDelivered: speaks of interfaces that still exist; FreedMeansDeliveredIff speaks of the others. An identifier stands for one interface object and is not used again.
- HotplugSystem.HotplugMatchesState: starts from any set of newly created interfaces; interfaces created later are not added.
- Plain devices with a parent, external devices, and freeing unused devices; the VLAN device type that shares the structure of the MAC-VLAN (vlandev.c) is covered by it.
- DeviceAtomicity.ClaimIsAtomic: speaks of counts and claimed flags; the links are in FailedClaimChangesNothing.
- DeviceLinks.LinksAreRight: deleting a link always works, and links are made and deleted by this daemon only, but for one that disappears before it is brought up.
- DeviceTable.Devices.RestartDevice: whether the device is present and what its users do when it goes and comes back are not part of it.
- DeviceRuns.CountsAreRight: the user with which a stacked device holds the one below is claimed and released by the device code only; driver codes are at most zero, as set_state returns them; device_replace is one move for each user, without its presence events.
- Bridges: the primary port and the MAC address, and the ports the kernel has; the claims of members stand for them.
- BridgeRuns.ClaimsFollowPresence: the condition on the retry timer is needed, because taking a bridge down does not cancel it (see LateRetryIff and LateRetryHappens).
- Addresses, their subnet routes, policy rules and host routes: only the routes of an interface are in the ledger.
- IpRoutes.KernelMatchesTree: the device, metric and tables of the interface do not change, and deleting a route from the kernel works.
- A route that failed once stays marked as failed when it is enabled again; the ledger makes no claim about such routes except that the kernel holds nothing else in their place.
- ResolvConf.ResolverFiles.WriteResolvConf: the content is a parameter and is taken to be written in full.
- IfAddr.ClearIfAddr: with mask 0 the original also touches the byte in front of the address without changing it; here nothing is written there.
- Wireless.StraysIff: what working on a freed device does is not modelled; such a device is only marked.
- Wireless interfaces, credentials, processes and their kill requests; only the state that decides about handlers is kept.
- The choice of a route by __find_ip_route_target, the settings of devices, status dumps and IP rules, which would add only long lists of simple members.
