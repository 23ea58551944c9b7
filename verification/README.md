# cluster-api-provider-vmwaredesktop: a verified model

A Dafny 4.11 model of the controller that turns a `VDMachine` resource into a VMware virtual
machine, with proofs about all its runs. `dafny verify dfyconfig.toml` checks it.

The controller runs in passes over a stored record (spec ids, VNC settings, status). A pass reads
the power state, and then either takes the machine down or goes through creation, hardware,
network adapters, IPAM claims, shared folders, VNC, bootstrap data, power and addresses, each stage
free to end the pass; the record is patched at the end. Any call may fail, others may act between
any two stages, and the controller may stop anywhere.

How it is laid out:

- `Api`, `Cloud`: the record, and the two outside parties as classes: the hypervisor (a map of VMs
  with power, hardware, configuration, folders and guest addresses, plus a log of successful
  writes) and the Kubernetes API (record, claims, addresses, secret).
- `Lifecycle`, `Folders`, `Adapters`, `Claims`, `VncSettings`, `Bootstrap`, `Addresses`: the stages
  as methods that update the machine object and the hypervisor. Each is proved against a relation
  over values (`FoldersStage`, `VncStage`, ...) between record and world before and after.
- `System`: those relations as a transition system, with steps for others, for failed patches and
  for a controller that stops. `Reconciler`: the pass itself, proved to be a path of the system.
- `Frames`, `Moves`: what a stage may change; the form of the system that safety needs.
- `Identity`, `ProviderIds`, `Orphans`, `PowerGate`, `StaleVMs`, `Readiness`, `ClaimHistory`,
  `FolderRuns`, `VncRuns`: what holds on every run.
- `Progress`, `Convergence`, `RestMeaning`, `Prospects`, `Quiescence`, `Deletion`: a rank that passes
  bring down, the bound it gives, what all this says in plain words, where convergence can start,
  rest, and the end of a deleted machine.
- `Histories`, `Witnesses`: building runs, and those on which what one would like to hold does not.
- `FolderSync`, `AdapterSlots`, `VncRounds`, `WriteOrder`, `BootstrapContent`, `AddressOrder`:
  what the loops inside the stages achieve.
- `Metadata`, `MetadataRoundTrip`: the metadata template and a reader of block-style YAML
  (YAML 1.2.2, sections 8.1 and 8.2; keys compared as section 3.2.1.3 asks).
- `DeepCopy`: the generated copies on a heap. `Aggregate`: goroutines, channel and wait group as
  interleaved steps.

What is assumed of the outside world: passes of one machine follow one another and each reads the
last successful patch; "not found" means the VM is absent; a failed call has no effect, and a party
called reliable fails only where the VM is absent; a clone gets an id nobody has used, is off, and
its adapters fill the slots 0..N-1; creating a shared folder is an upsert; nobody else reuses the id
of a VM created here. Reading through a nil pointer is an outcome (`Panic`) of the stage, never a
precondition. Configuration keys are values of a datatype, for the injective key formats of the
source. Library functions (CIDR parsing, base64, string replacement, the template engine) are
parameters: results hold for all of them, or say what they ask (decoding undoes encoding; the
engine prints as the template says where nothing needs escaping).

Where the code does not do what one would like, the model follows the code:

- The finalizer reaches the API server only with the patch that also stores the VM id, so deleting
  the record during the first pass orphans the clone (`Orphans.OrphanHappens`). Orphans are exactly
  the VMs whose creating pass lost its patch (`Orphans.OrphansExactly`).
- A vanished VM costs the record its two ids but not its bootstrap flag, so its successor is turned
  on without bootstrap data (`Witnesses.StaleVMHappens`; exact condition `PowerGate.PowerOnGated`).
- Comparing VNC settings reads through nil where the spec sets what the status lacks
  (`VncRounds.VncPanicsExactly`). A record gets there when the first read does not find a setting of
  the spec, as on a fresh clone (`Witnesses.FreshCloneSticks`); when a value is generated and a write
  or the read after it fails, as the value is stored all the same
  (`Witnesses.FailedGenerationStored`); when an empty text is written; or when the user adds a setting
  later. Those are all the ways (`VncRounds.VncSticksExactly`, `VncRuns.StuckHasCause`), and short of
  an edit the machine never gets past that stage again (`VncRuns.StuckForGood`).
- A generated port or password is stored only with the patch of its pass; if that is lost, another may
  be generated and written (`Witnesses.TwoPortsWritten`; not otherwise, `VncRuns.OneValueWritten`).
- Claims are named machine, dash, ethernet, which does not always tell machines apart
  (`ClaimHistory.ClaimShared`; exact condition `ClaimHistory.ClaimsCoincideExactly`).
- Missing adapters leave gaps between the slots when an earlier adapter of the spec was there
  (`AdapterSlots.StaysContiguousExactly`). With an unchanged spec nothing is missing afterwards; but
  after an edit of the spec a gap can make a pass overwrite an adapter
  (`Witnesses.AdapterOverwritten`; exact condition `AdapterSlots.OverwritesExactly`).
- An adapter pass that fails after a "present" was written leaves a slot that counts as in use, so the
  next one writes one slot on (`AdapterSlots.EmptyAdapterStays`; exact condition
  `AdapterSlots.CutShortHarmlessExactly`).
- Shared folders are compared by host path only, so a change of flags alone is not applied
  (`Witnesses.FlagsIgnored`; exact conditions `FolderSync.TargetExactly` for a pass and
  `FolderRuns.SettledFoldersExactly` for a run). An empty list in the spec is not enforced on a new
  machine (`Witnesses.EmptySpecIgnored`; exact conditions `FolderSync.EmptySpecExactly` and
  `FolderRuns.EmptySpecSettles`).
- Two ethernets of one name make the metadata repeat a key, which YAML does not allow
  (`MetadataRoundTrip.RoundTrip`).

## Model

| member | source | states |
|---|---|---|
| Reconciler.Reconcile | internal/controller/vdmachine_controller.go:104-179 | One call of the entry point is a path of steps of the transition system from the stored record to its patch; without a patch the record was gone or the API did not answer; the pass happens exactly when it may go ahead and there is a record |
| Reconciler.PassContinuesRun | internal/controller/vdmachine_controller.go:104-179 | What the imperative pass did continues any run it started from, so what is proved of all runs holds after it |
| Reconciler.Probe | internal/controller/vdmachine_controller.go:154-171 | The path grows by one step of the system: the power state is read and patched at once, a missing VM costs the record both ids and ends the pass, another failure ends it with an error |
| Reconciler.ReconcileNormal | internal/controller/vdmachine_controller.go:181-249 | Finalizer first, then the upstream checks, then creation alone or the eight stages in order, each only after the one before was content |
| Reconciler.RunStage | internal/controller/vdmachine_controller.go:208-246 | Running a stage on the machine object extends the path by exactly one step, a step of that stage, to the next stage or to the end of the pass |
| Reconciler.ReconcileDeletion | internal/controller/vdmachine_controller.go:174-176 | A record marked deleted is only dismantled |
| Reconciler.Finish | internal/controller/vdmachine_controller.go:144-151 | The deferred patch is one step of the system, from the end of the pass to the record it left as `Cloud.Cluster.Patch` says; it fails only if the record is gone or the API does not answer |
| Cloud.Cluster.Patch | internal/controller/vdmachine_controller.go:144-151 | A patch stores every field as the pass left it, but for the deletion mark, which stays the API server's own, and an empty list of adapters, which is stored as none; a deleted record without finalizer goes |
| Lifecycle.ReconcileCreateVM | internal/controller/vdmachine_controller.go:251-275 | A clone gives the record its id, the provider id made from it and the hardware found; a failure changes nothing |
| ProviderIds.CloneIsNamed | internal/controller/vdmachine_controller.go:264-271 | The provider id a clone gives the record is "vmwaredesktop://" followed by the id of the VM just made |
| ProviderIds.ProviderIdNamesVM | internal/controller/vdmachine_controller.go:155-171 | On every run a provider id that is set is "vmwaredesktop://" followed by the id of the VM the record names, and it is set whenever that VM exists |
| ProviderIds.ProviderIdsDiffer | internal/controller/vdmachine_controller.go:264 | Two machines, or one at two times, have the same provider id exactly if they name the same VM |
| Lifecycle.ReconcileHardware | internal/controller/vdmachine_controller.go:277-314 | Nothing when status and spec agree; otherwise both values are written, the unset one from the status, and read back |
| Lifecycle.SizedAsAsked | internal/controller/vdmachine_controller.go:277-312 | When the hardware stage is content the status shows what the spec asks for, a value left open is unchanged, and what was written the VM has |
| Lifecycle.ReconcilePowerState | internal/controller/vdmachine_controller.go:316-336 | Turns the VM on exactly if the record says it is off; a missing VM costs the record its provider id only; a nil state is a nil dereference |
| Lifecycle.ReconcileDelete | internal/controller/vdmachine_controller.go:976-1022 | Without a VM the finalizer goes; a VM not off is turned off first; a VM that is off is deleted and then the finalizer goes; a VM found missing on the way lets the finalizer go although the call is an error |
| Folders.SharedFoldersEqual | internal/controller/vdmachine_controller.go:941-967 | The comparison by key count and host paths decides exactly whether both lists denote the same map from id to host path, the last entry of an id counting |
| Folders.WriteFolders | internal/controller/vdmachine_controller.go:889-928 | From any folders of the VM, deletions then upserts leave exactly what the spec asks; cut short by an error they leave a stated part of it |
| Folders.ReconcileSharedFolders | internal/controller/vdmachine_controller.go:855-933 | Equal lists: nothing is read. Otherwise the status is what is read, and unless it is now equal the VM is brought to the spec and the pass asks to be run again |
| FolderSync.TargetMeans | internal/controller/vdmachine_controller.go:889-916 | Entry by entry: an id of the spec gets the path and flags of its last entry, flags defaulting to 4 |
| FolderSync.LastWinsMeans | internal/controller/vdmachine_controller.go:942-950 | The map built by the loop holds, for each id in the list, the last entry with it |
| FolderSync.SyncedOnce | internal/controller/vdmachine_controller.go:863-932 | A pass that gets its writes through, whatever was there before and however an earlier one ended, leaves the VM with the spec folders; the next pass re-reads and writes nothing |
| FolderSync.RequeueMeansRepaired | internal/controller/vdmachine_controller.go:863-932 | Another pass is asked for exactly when neither the status nor the VM shows the spec folders, and then the VM has them |
| FolderSync.PartialSyncMeans | internal/controller/vdmachine_controller.go:899-928 | After an interrupted pass every folder was there before or is asked for, and what the spec does not name is unchanged |
| FolderSync.OnlyForeignRemoved | internal/controller/vdmachine_controller.go:899-928 | However a pass of the stage ends, a folder it removed is named by no entry of the spec, and one it put has the path of an entry and its flags or 4 |
| FolderSync.TargetExactly | internal/controller/vdmachine_controller.go:863-932 | When a pass that did not fail leaves the VM with exactly the folders asked for: exactly if it wrote, which it does when neither status nor VM shows their paths, or paths and flags were right already |
| FolderSync.EmptySpecExactly | internal/controller/vdmachine_controller.go:863-932 | With no folders in the spec such a pass leaves the VM without any exactly if it had none or the status had read some |
| FolderSync.FlagsAloneIgnored | internal/controller/vdmachine_controller.go:956-964 | A folder that differs in its flags alone is left as it is |
| FolderRuns.FolderStatusIsTrue | internal/controller/vdmachine_controller.go:855-933 | Over every run with a fixed non-empty list and nobody else touching the VM: if the stored status shows the spec folders, the VM has them |
| FolderRuns.SettledFoldersExactly | internal/controller/vdmachine_controller.go:855-933 | And it then has exactly those, flags included, if and only if for each of them the flags last put since the clone, or else those of the clone, are the ones asked for |
| FolderRuns.PutsAreRight | internal/controller/vdmachine_controller.go:910-928 | On such a run, where the ids differ, whatever was put since the clone is what the spec asks; so only flags that came with the clone can be wrong |
| FolderRuns.EmptySpecSettles | internal/controller/vdmachine_controller.go:863-865 | With a list that is empty from the start the VM keeps the folders of the clone; it has none exactly if the clone had none |
| Witnesses.FlagsIgnored | internal/controller/vdmachine_controller.go:956-964 | A run from a new record to a status that shows the folder asked for and a VM that has it with other flags |
| Witnesses.EmptySpecIgnored | internal/controller/vdmachine_controller.go:863-865 | A run from a new record to a machine at rest that asks for no folders and has one |
| Adapters.ReconcileNetworkAdapters | internal/controller/vdmachine_controller.go:516-602 | The list is refreshed unless the status contains what is wanted; the missing adapters are written to the slots after those in use; nil types and networks are nil dereferences |
| Adapters.ContainsMeans | internal/controller/vdmachine_controller.go:935-939 | On a list read from the VM, an adapter is contained exactly if one has its type and its network |
| Adapters.ContainsExactly | internal/controller/vdmachine_controller.go:935-939 | On any list the search stops at the first entry that does not differ in a type or network that is set: it finds the adapter if that entry is alike, and otherwise reads nil |
| Adapters.AllContainedExactly | internal/controller/vdmachine_controller.go:531-537 | The first adapter of the spec that is not in the list decides whether the list is refreshed or nil is read |
| AdapterSlots.ContiguousMeans | internal/controller/vdmachine_controller.go:567 | The assumption on clones, that no slot in use reaches their number, says exactly that they are 0..N-1 |
| AdapterSlots.ParamsMean | internal/controller/vdmachine_controller.go:569-585 | The parameters written are the five of each missing adapter at the slot N plus its place in the spec, and no others |
| AdapterSlots.NewAdapterKeys | internal/controller/vdmachine_controller.go:571-582 | For a missing adapter: its type and network, its device or vmxnet3, present, with a generated address |
| AdapterSlots.OnlyReadIfNoneWanted | internal/controller/vdmachine_controller.go:525-564 | Without a network or adapters in the spec nothing is ever written; the adapters of the VM are read once, if the status has none yet |
| AdapterSlots.AdaptersAdded | internal/controller/vdmachine_controller.go:567-597 | With slots 0..N-1 in use, new adapters take distinct free slots from N on, those in use keep theirs, and the number grows by that of the missing ones |
| AdapterSlots.OverwritesExactly | internal/controller/vdmachine_controller.go:567-597 | In general a slot in use is written to exactly if it lies as far beyond N as a missing adapter is down the spec |
| AdapterSlots.StaysContiguousExactly | internal/controller/vdmachine_controller.go:567-585 | The slots in use are contiguous afterwards exactly if no adapter of the spec that was there precedes a missing one |
| AdapterSlots.AddedOnce | internal/controller/vdmachine_controller.go:531-601 | After the pass that adds the missing adapters the VM holds all of the spec, and the next pass writes nothing and at most refreshes the status, which then shows them |
| AdapterSlots.AdaptersPanicExactly | internal/controller/vdmachine_controller.go:577-579 | Against a hypervisor that answers, the stage dies of a nil type or network exactly if the spec has such an adapter |
| AdapterSlots.CutShortHarmlessExactly | internal/controller/vdmachine_controller.go:567-596 | After some of the parameters of a pass, the next one counts an adapter more for each slot whose "present" got through, and writes what the whole pass would have written exactly if there is none |
| AdapterSlots.InterruptedPass | internal/controller/vdmachine_controller.go:567-601 | Then the pass that gets through ends like one that was never interrupted |
| AdapterSlots.EmptyAdapterStays | internal/controller/vdmachine_controller.go:577-596 | A "present" that got through alone: the adapter is written one slot on, and an empty one stays behind |
| Witnesses.AdapterOverwritten | internal/controller/vdmachine_controller.go:567-597 | A run on which the second of two adapters goes past a gap, the user puts a third before both, and the next pass writes it over the second |
| Claims.ReconcileNetworkAddresses | internal/controller/vdmachine_controller.go:604-662 | Ethernet by ethernet a missing claim is made and its address awaited, up to the first unanswered one; a nil API group of a claim to be made is a nil dereference |
| ClaimHistory.ClaimedUpToFirstUnresolved | internal/controller/vdmachine_controller.go:609-661 | Without an error, afterwards there are claims for the references up to and including the first unanswered one and no new ones beyond; the stage passes exactly if none is unanswered |
| ClaimHistory.ClaimsMade | internal/controller/vdmachine_controller.go:620-641 | The references without a claim get one each, none twice |
| ClaimHistory.ClaimedFromPool | internal/controller/vdmachine_controller.go:629-635 | A claim made asks the pool of the first reference with its name |
| ClaimHistory.ClaimNamesDiffer | internal/controller/vdmachine_controller.go:614 | The claims of two ethernets of one machine have the same name exactly if the ethernets do |
| ClaimHistory.ClaimsAreNamed | internal/controller/vdmachine_controller.go:614-661 | Whatever the stage claims is named machine, dash, ethernet, for an ethernet of the spec with a pool reference; it is content only if under each such name there is a claim and an address that is not empty, and waits only if under one there is no such address |
| ClaimHistory.ClaimsCoincideExactly | internal/controller/vdmachine_controller.go:614 | Claims of two machines coincide exactly if machine and ethernet are the same, or the name of one machine is that of the other, a dash and x, and the ethernet of the other is x, a dash and the ethernet of the one |
| ClaimHistory.ClaimShared | internal/controller/vdmachine_controller.go:614-628 | So machine cp-0 with eth0 finds and uses the claim that machine cp made for 0-eth0 |
| ClaimHistory.ClaimsApart | internal/controller/vdmachine_controller.go:614 | With no dash in the ethernet names no two machines share a claim |
| ClaimHistory.ClaimsPanicExactly | internal/controller/vdmachine_controller.go:631 | With an API that answers, the stage dies exactly if it comes to a reference that needs a claim and has no API group |
| ClaimHistory.ClaimedOnceInOrder | internal/controller/vdmachine_controller.go:604-662 | Over every run with a fixed spec and nobody taking claims or addresses back: no name is claimed twice, and a claimed reference has nothing unanswered before it |
| ClaimHistory.ClaimsExactly | internal/controller/vdmachine_controller.go:604-662 | If besides nobody else claims: from the end of a pass of the stage without error until the next, the claims are exactly the references up to and including the first that was unanswered |
| Progress.FewerUnclaimed | internal/controller/vdmachine_controller.go:609-661 | A pass without error leaves no more references without a claim, and one that asks to be run again though every claim so far was answered leaves fewer |
| Progress.RequeuesBounded | internal/controller/vdmachine_controller.go:609-661 | So with an allocator that answers, there are at most as many such passes as distinct references without a claim at the start |
| VncSettings.ReconcileVnc | internal/controller/vdmachine_controller.go:685-784 | Without a status the settings are read and the pass run again; settings that differ or are to be generated are written and read back; a nil status field that is compared is a nil dereference |
| VncSettings.UpdateVncStatus | internal/controller/vdmachine_controller.go:786-834 | A read that gets through leaves the flag true exactly for 1, t, T, TRUE, true, True, false exactly for 0, f, F, FALSE, false, False and absent otherwise, and port and password as they read unless empty; one that does not leaves the status alone |
| VncSettings.SettingMeans | internal/controller/vdmachine_controller.go:793-811 | A setting reads as the text under its RemoteDisplay key, or if that is absent or empty as that under its remotedisplay key, or else as empty |
| VncSettings.GeneratePassword | internal/controller/vdmachine_controller.go:836-846 | Eight characters of the alphabet |
| VncSettings.PasswordMeans | internal/controller/vdmachine_controller.go:836-846 | What a password generated may be: eight letters and digits |
| VncRounds.AlphabetIsWhole | internal/controller/vdmachine_controller.go:836 | The 62 places of the alphabet hold each letter of either case and each digit once |
| VncRounds.PortDigits | internal/controller/vdmachine_controller.go:736-737 | The texts a generated port may be are exactly 5900 to 5999 |
| VncRounds.FlagRoundTrip | internal/controller/vdmachine_controller.go:753-754 | The upper-case print of a flag is read back as the flag |
| VncRounds.SettingsWritten | internal/controller/vdmachine_controller.go:750-776 | A pass that writes leaves, under the mixed-case keys, the flag as TRUE or FALSE and port and password as they are, each if the spec, filled in, sets it; all else stays |
| VncRounds.ReadsWhatWasWritten | internal/controller/vdmachine_controller.go:750-832 | What is read after writing every setting agrees with the spec, provided no empty text is asked for |
| VncRounds.VncSettledOnce | internal/controller/vdmachine_controller.go:692-783 | A pass whose writes succeed leaves the status equal to every setting, generated ones included; the next pass changes nothing |
| VncRounds.StageOnlyGenerates | internal/controller/vdmachine_controller.go:733-748 | The stage changes the spec only by generating a port or password that is asked for and not set |
| VncRounds.VncPanicsExactly | internal/controller/vdmachine_controller.go:696-722 | Any pass of the stage dies of a nil dereference exactly if the record is stuck, that is, the spec sets what the status lacks; nothing changes then, so every later pass dies too, whatever the world |
| VncRounds.VncSticksExactly | internal/controller/vdmachine_controller.go:689-783 | A pass makes the record stuck exactly if the first read does not find a setting of the spec, or a generated value is kept though a write or the read after it failed, or an empty text is written and nothing stands in for it |
| VncRounds.FailedGenerationSticks | internal/controller/vdmachine_controller.go:733-776 | A spec that only asks for a generated port, whose first write fails, is stuck for good although the VM showed all that it set |
| VncRuns.StoredOnce | internal/controller/vdmachine_controller.go:733-748 | Over every run in which the user leaves them alone, a stored port or password never changes, and one generated is generated within its range |
| VncRuns.OneValueWritten | internal/controller/vdmachine_controller.go:733-776 | If besides no generating pass lost its patch, all ports ever written are the same one, and so are all passwords |
| Witnesses.TwoPortsWritten | internal/controller/vdmachine_controller.go:733-776 | If one did, any other port may be written next: a run that writes any two |
| VncRuns.StuckHasCause | internal/controller/vdmachine_controller.go:685-784 | On every run, edits included: a stored record is stuck only if an earlier pass made it so in one of the three ways and stored it, or an edit set what the status lacks |
| VncRuns.StuckExactly | internal/controller/vdmachine_controller.go:685-784 | With settings nobody edits it is stuck exactly if such a pass stored it |
| VncRuns.StuckForGood | internal/controller/vdmachine_controller.go:696-722 | Until an edit it stays so: settings and status never change, no pass gets past the VNC stage, and each that reaches it dies |
| Witnesses.FreshCloneSticks | internal/controller/vdmachine_controller.go:696-722 | A run from a new record that sets anything, on a clone without VNC settings: the third pass dies |
| Witnesses.FailedGenerationStored | internal/controller/vdmachine_controller.go:733-776 | A run from a new record that asks for a generated port, through one failed write, to a stored record that is stuck |
| Bootstrap.ReconcileBootstrapData | internal/controller/vdmachine_controller.go:412-514 | Unless done already: the secret, then the network as described, then the four parameters in any order, then the flag; nothing is set before all four are written |
| Bootstrap.BuildDocument | internal/controller/vdmachine_controller.go:436-478 | One entry for each ethernet in order, and the node address |
| BootstrapContent.OneDocument | internal/controller/vdmachine_controller.go:436-478 | Spec and addresses determine the document |
| BootstrapContent.PoolBackedEntry | internal/controller/vdmachine_controller.go:445-462 | After the IPAM stage passed, each pool-backed ethernet has exactly one address with its prefix, and each route its place, target, explicit gateway or else the allocated one |
| BootstrapContent.NodeAddress | internal/controller/vdmachine_controller.go:449-451 | The node address is that of the last ethernet with ipamAsNodeIP true and a non-empty address under machine, dash, ethernet; there is none exactly if no ethernet is such |
| BootstrapContent.EntryAddress | internal/controller/vdmachine_controller.go:441-448 | Each ethernet has the address allocated under machine, dash, ethernet, with its prefix in decimal, or none while that is absent or empty |
| BootstrapContent.DecimalMeans | internal/controller/vdmachine_controller.go:447 | Numbers print as their decimal digits, without leading zeros |
| BootstrapContent.BootstrapParameters | internal/controller/vdmachine_controller.go:428-508 | Once content, the stage has added to the configuration the encoded user data with the provider id put in, the encoded metadata, and base64 for both; and changed nothing else |
| BootstrapContent.GuestReadsDocument | internal/controller/vdmachine_controller.go:433-508 | A guest that decodes its parameters reads exactly the document described if the ethernets have different names, and cannot read it if two share one; and its user data with the provider id put in |
| BootstrapContent.BootstrapPanicsExactly | internal/controller/vdmachine_controller.go:433-448 | Against services that answer, the stage dies exactly if provider id, network or the prefix of an allocated address is missing |
| MetadataRoundTrip.RoundTrip | internal/controller/constants.go:3-55 | For texts that need no quoting or escaping, reading the printed block document gives the document back exactly if no two ethernets share a name; otherwise a key is repeated and nothing is read |
| MetadataRoundTrip.PrintIsInjective | internal/controller/constants.go:3-55 | Two such documents, whatever their names, print alike exactly if they are equal; in particular an absent flag and a false one differ |
| MetadataRoundTrip.PrintIsText | internal/controller/constants.go:3-17 | The print, piece by piece, is the text of lines indented two columns a level |
| MetadataRoundTrip.PrintedInFull | internal/controller/constants.go:12-55 | An ethernet with one of everything prints line by line as the template has it, gateways in quotes |
| MetadataRoundTrip.RoutesRead | internal/controller/constants.go:32-40 | The list of routes is read back in order, each with its own gateway or none |
| Addresses.ExtractAddresses | internal/controller/vdmachine_controller.go:376-410 | Fails exactly if a malformed address is on a NIC that is not told to avoid DHCPv6; otherwise gives the addresses kept, NIC by NIC |
| Addresses.ReconcileAddresses | internal/controller/vdmachine_controller.go:338-374 | Nothing if there are addresses; otherwise ready and provisioned are set with the addresses, once there is one for each ethernet |
| AddressOrder.AddressesInOrder | internal/controller/vdmachine_controller.go:379-407 | The list is complete, in the order of the NICs and of the addresses on each, with the type of its ethernet or InternalIP |
| AddressOrder.AddressAt | internal/controller/vdmachine_controller.go:380-405 | Each address kept has the type its ethernet asks for, or InternalIP |
| AddressOrder.PassedOverExactly | internal/controller/vdmachine_controller.go:396-398 | An address is passed over exactly if its NIC turns DHCPv6 off and it is not IPv4 |
| AddressOrder.AddressesPanicExactly | internal/controller/vdmachine_controller.go:353-381 | With a VM that answers, the stage dies exactly if the guest reports a NIC, no addresses are known and the spec has no network |
| Cloud.Hypervisor.WriteParams | internal/controller/vdmachine_controller.go:499-508 | The loop over a map, in any order, writes every parameter or stops after some; the log tells which |
| WriteOrder.OrderDoesNotMatter | internal/controller/vdmachine_controller.go:499-508 | Every enumeration of the parameters gives the old configuration overridden by them |
| WriteOrder.RetryRepairs | internal/controller/vdmachine_controller.go:765-776 | An enumeration broken off anywhere and then done whole gives the same |
| WriteOrder.DeletionOrderDoesNotMatter | internal/controller/vdmachine_controller.go:899-908 | Every enumeration of the stale folders leaves the folders without them |
| WriteOrder.LoopRetried | internal/controller/vdmachine_controller.go:584-595 | A write loop that failed, tried again to its end, leaves what a single one would |
| Moves.NextMoves | internal/controller/vdmachine_controller.go:203-246 | Each stage but creation, power and deletion touches only its own part of the record and the settings of the machine's own VM |
| Identity.IdsOnEveryRun | internal/controller/vdmachine_controller.go:155-171 | In every reachable state a record with a provider id names a VM, a VM without one was bootstrapped, and the power state and provider id are set wherever they are read |
| Identity.IdentityKept | internal/controller/vdmachine_controller.go:160-167 | Every step keeps that |
| Orphans.OrphansExactly | internal/controller/vdmachine_controller.go:251-275 | Between passes, the VMs the record does not lead to are exactly the surviving ones whose creating pass did not get its patch through |
| Orphans.NoOrphans | internal/controller/vdmachine_controller.go:976-1022 | If every creating pass ended with its patch, at most one VM of the machine exists, the record names it, and when finalizer or record are gone so is the VM |
| Orphans.OrphanHappens | internal/controller/vdmachine_controller.go:184-206 | A user who deletes the record while its first pass clones the VM leaves an orphan: the finalizer is stored only with the id |
| PowerGate.PowerOnGated | internal/controller/vdmachine_controller.go:233-241 | On every run, a VM turned on had all four bootstrap parameters written before, exactly unless it was created for a record that already said it was bootstrapped |
| PowerGate.PowerOnAfterBootstrap | internal/controller/vdmachine_controller.go:233-241 | So always, if nobody else removes VMs |
| PowerGate.PowerOnSettled | internal/controller/vdmachine_controller.go:208-241 | When a pass comes to power, hardware, adapters and folders are as wanted and in this same pass every pool reference was resolved |
| StaleVMs.StaleVMTurnedOn | internal/controller/vdmachine_controller.go:158-163 | Any run that brought a machine to rest goes on, if its VM is removed by others, to one in which the new VM is turned on without any bootstrap parameter |
| Witnesses.ComesToRest | internal/controller/vdmachine_controller.go:181-249 | There are such runs: from a new record a machine comes to rest in three passes |
| Witnesses.StaleVMHappens | internal/controller/vdmachine_controller.go:158-163 | So there is a run from a new record on which a VM is turned on without bootstrap data |
| Readiness.ReadyMeans | internal/controller/vdmachine_controller.go:366-371 | With a fixed spec: ready equals provisioned, implies bootstrapped and the addresses of one report of the guest, enough for the spec; neither is ever taken back |
| Readiness.NoVMOnceDeleted | internal/controller/vdmachine_controller.go:173-178 | Once a record at rest is marked deleted, no VM is ever created for it |
| Deletion.DeletionProgress | internal/controller/vdmachine_controller.go:154-176 | Against a hypervisor that answers, every pass over a deleted record brings it closer to its end |
| Deletion.DeletedInTwoPasses | internal/controller/vdmachine_controller.go:976-1022 | After two passes in a row the record is gone, and with it the VM it named |
| Deletion.DeletedHoldsFinalizer | internal/controller/vdmachine_controller.go:184-185 | On every run a deleted record that exists holds its finalizer |
| Quiescence.PassOverConverged | internal/controller/vdmachine_controller.go:154-248 | A pass over a converged machine writes nothing, claims nothing and leaves the record as it was, even if calls fail |
| Quiescence.ConvergedForGood | internal/controller/vdmachine_controller.go:154-248 | The same for any number of passes |
| Quiescence.StageIsStill | internal/controller/vdmachine_controller.go:203-248 | Each stage leaves the world alone and the record as good as it was when the machine is at rest |
| Progress.AdaptersAdvance | internal/controller/vdmachine_controller.go:516-602 | The adapter stage of a machine on course asks for another pass only after bringing the rank down |
| Progress.FoldersAdvance | internal/controller/vdmachine_controller.go:855-933 | So does the folder stage |
| Progress.VncAdvances | internal/controller/vdmachine_controller.go:685-784 | So does the VNC stage, and when it lets the pass go on the status agrees with the spec |
| Progress.ClaimsProceed | internal/controller/vdmachine_controller.go:604-662 | The IPAM stage never brings the rank up, and with claims answered asks for another pass only after bringing it down; when it lets the pass go on every reference has its claim and address |
| Progress.BootAdvances | internal/controller/vdmachine_controller.go:412-514 | Bootstrap of a machine on course succeeds |
| Progress.PowerAdvances | internal/controller/vdmachine_controller.go:316-336 | Turning on a VM that is off brings the rank down |
| Convergence.WaitingPassLosesNothing | internal/controller/vdmachine_controller.go:181-249 | A pass that has to wait for the allocator or the guest loses nothing of what was reached |
| Convergence.PassProgresses | internal/controller/vdmachine_controller.go:181-249 | A pass that has nobody to wait for brings the machine closer to rest, or to it |
| Convergence.ConvergesInTime | internal/controller/vdmachine_controller.go:181-249 | Among any number of passes that wait, of more than the bound of `RestMeaning.BoundMeans` that need not, one ends at rest, and the first to do so comes before the bound is exceeded |
| Convergence.ConvergesOnceAnswered | internal/controller/vdmachine_controller.go:181-249 | If from some pass on claims are answered and the guest reports, that happens within the bound from there |
| Convergence.NewRecordHopeful | internal/controller/vdmachine_controller.go:181-185 | A new well-formed record is where convergence starts |
| Prospects.ReachableHopeful | internal/controller/vdmachine_controller.go:181-249 | On every run, between passes: a machine that is not being deleted and whose VM exists is where convergence starts exactly if its record is not stuck and its adapters are in order |
| Prospects.InOrderUnlessInterrupted | internal/controller/vdmachine_controller.go:567-596 | With nobody else touching them the adapters are in order unless a failed adapter pass had let a "present" through |
| Prospects.HopefulUnlessInterrupted | internal/controller/vdmachine_controller.go:181-249 | So convergence can start from every such state but for a stuck record or an adapter pass interrupted that way |
| Convergence.RestIsConverged | internal/controller/vdmachine_controller.go:243-248 | And at its end, with an ethernet to have an address on, later passes change nothing |
| RestMeaning.RestMeans | internal/controller/vdmachine_controller.go:181-249 | What rest is, in the words of spec, record and VM: finalizer, provider id naming the VM, power, sizes, adapters, claims and addresses, folders, VNC settings, bootstrapped, ready; exactly that |
| RestMeaning.BoundMeans | internal/controller/vdmachine_controller.go:609-661 | The bound on passes: the number of distinct names machine, dash, ethernet of pool references, and seven |
| RestMeaning.WellFormedMeans | internal/controller/vdmachine_controller.go:516-641 | What convergence asks of the spec: a network, and in it types and networks of adapters and API groups of pool references |
| RestMeaning.FavourableMeans | internal/controller/vdmachine_controller.go:181-249 | What it asks of the world at the start of a pass that need not wait, in the same words |
| DeepCopy.CopySpec | api/v1alpha1/zz_generated.deepcopy.go:210-264 | A copy of the spec, of any nested lengths, has the same value and shares no object with it |
| DeepCopy.CopyStatus | api/v1alpha1/zz_generated.deepcopy.go:267-317 | The same for the status |
| DeepCopy.CopyNetwork | api/v1alpha1/zz_generated.deepcopy.go:427-453 | The same for the network with its two slices |
| DeepCopy.CopyEthernet | api/v1alpha1/zz_generated.deepcopy.go:486-540 | The same for an ethernet with its reference, nameservers and routes |
| DeepCopy.CopySlice | api/v1alpha1/zz_generated.deepcopy.go:244-247 | A slice of structs: a new backing array, element by element, and new cells for all pointers; nil stays nil |
| DeepCopy.CopyVnc | api/v1alpha1/zz_generated.deepcopy.go:583-610 | The same for the VNC settings |
| DeepCopy.SetPortInCopy | api/v1alpha1/zz_generated.deepcopy.go:249-253 | Setting the VNC texts in a copy does not show in the original |
| DeepCopy.SetPortInOriginal | api/v1alpha1/zz_generated.deepcopy.go:249-253 | Nor the other way round |
| Aggregate.NoSenderBlocks | test/e2e/log_collector.go:177-187 | In every interleaving a goroutine that wants to send finds the channel open and with room |
| Aggregate.CollectsAll | test/e2e/log_collector.go:188-195 | When done, whatever the interleaving, the aggregate returned holds each error as often as there are functions returning it, and is nil exactly if all return nil |
| Aggregate.ReturnsInTime | test/e2e/log_collector.go:175-196 | No deadlock and no endless run: an interleaving can always go on until main returns, after exactly four steps a function and three more |

## Left out

- HTTP and Kubernetes clients, watches, `SetupWithManager` and logging: plumbing around the calls modelled here.
- Owner, cluster and pause checks (lines 117-137): one parameter that says whether the pass goes ahead. The waits for cluster and bootstrap secret (lines 187-197): one flag of the world.
- Cloud.Cluster.Patch: a patch is one step that stores spec and status or fails; the helper's two requests, of which only one may succeed, and stale caches are not modelled.
- Delays: only whether a pass ends early or asks to be run again is kept, not how long it waits.
- Lifecycle.ReconcileDelete: a VM that vanishes between turning it off and reading its power state (lines 1000-1007); others act between stages, not between the calls of one.
- Lifecycle.ReconcileCreateVM: a reply without processors or memory, which would be read through nil (lines 269-270).
- Lifecycle.ReconcileHardware: the hypervisor is taken to report back, in full, the hardware it was given.
- VncSettings.UpdateVncStatus: a reply without a value, which would be read through nil (line 806).
- Convergence.ConvergesInTime: it asks of every pass that the calls work and that a VNC setting not read yet can be read; passes in between on which calls fail are not covered.
- Convergence.RestIsConverged: without ethernets a machine can be ready with no addresses, and then goes on asking its guest.
- Quiescence.PassOverConverged: a pass that loses its patch is not covered; it stores nothing.
- FolderRuns.FolderStatusIsTrue: for a record not marked deleted; so are the results on settled folders built on it.
- MetadataRoundTrip.RoundTrip: texts with characters that YAML or HTML treat specially, and what the template engine makes of them; the YAML reader is one of block style, with the scalars that the template needs.
- DeepCopy.CopyEthernets: the elements are copied one by one and then put into the new array, where the source fills the array in place.
- DeepCopy.CopyStatus: conditions are taken as plain values; their own deep copy is library code.
- Deep copies of lists, templates and clusters: the same pattern with fewer fields.
- `internal/controller/vdcluster_controller.go`, `cmd/main.go`, the e2e suites apart from error aggregation, and all manifests: one flag, one finalizer, configuration and glue.
- The random source: any port of the range and any characters of the alphabet may come out.
