/** Runs on which what one would like to hold does not, each from a new record on. */
module Witnesses {
  import opened Options
  import opened Api
  import opened Cloud
  import opened Lifecycle
  import opened Folders
  import opened Adapters
  import opened VncSettings
  import opened Metadata
  import opened Bootstrap
  import opened Addresses
  import opened System
  import opened FolderSync
  import opened AdapterSlots
  import opened VncRounds
  import opened Frames
  import opened Orphans
  import opened Histories
  import opened StaleVMs

  // A machine without ethernets, with these adapters and folders, in a world that answers.
  function Bare(adapters: seq<NetAdapter>, folders: seq<SharedFolder>): Desired {
    Desired("machine", "template", None, None, Some(NetworkSpec(Some(adapters), [])), folders)
  }

  function NewMachine(d: Desired, vnc: Option<Vnc>): State {
    var m := Record(false, false, None, None, vnc, None, Hardware(0, 0), None, [], None, [], false, false, false);
    State(Idle, true, m, d, m, World(map[], [], map[], [], map[], Some(""), true, true), Continue, {}, {}, {})
  }

  function CloneOf(config: map<Key, string>, folders: map<string, Folder>): VM {
    VM(PoweredOff, 1, 1, config, folders, [])
  }

  lemma {:induction false} FirstPassClones(lib: Lib, d: Desired, vnc: Option<Vnc>, id: string, vm: VM) returns (run: seq<State>)
    requires vm.power == PoweredOff && Contiguous(vm.config)
    ensures Run(lib, run) && run[0] == NewMachine(d, vnc) && Last(run) == Patch(Born(StartedNew(NewMachine(d, vnc)), id, vm))
    ensures Restful(Last(run)) && Last(run).d == d && Last(run).stored.vmID == Some(id) && Last(run).stored.adapters == None
    ensures id in Last(run).w.vms && Last(run).w.vms[id] == vm
  {
    run := Clones(lib, [NewMachine(d, vnc)], id, vm);
  }

  /******* VNC *******/

  // The first read of the settings ends the pass.
  lemma {:induction false} ReadsSettings(lib: Lib, run: seq<State>) returns (run': seq<State>)
    requires Run(lib, run) && Last(run).pc == AtVnc && Last(run).alive
    requires Last(run).mem.vncStatus.None? && Last(run).mem.vmID.Some? && Last(run).mem.vmID.value in Last(run).w.vms
    ensures Run(lib, run') && run <= run'
    ensures var s := Last(run);
            var status := ReadVnc(s.w.vms[s.mem.vmID.value].config);
            Last(run') == Patch(s.(pc := Finishing, out := Requeue, mem := s.mem.(vncStatus := Some(status))))
  {
    var s := Last(run);
    var id := s.mem.vmID.value;
    var s' := s.(pc := Finishing, out := Requeue, mem := s.mem.(vncStatus := Some(ReadVnc(s.w.vms[id].config))));
    assert VncStage(s.d, id, s.mem, s.w, s'.mem, s'.w, s'.out);
    assert StageStep(lib, s, s');
    run' := PassEnds(lib, run, s');
  }

  // What the record of a bare machine is after its second pass.
  function SettingsRead(id: string, vnc: Option<Vnc>, vm: VM): Record {
    Record(true, false, Some(id), Some(ProviderID(id)), vnc, Some(PoweredOff), Hardware(vm.cpu, vm.memory), None, [],
           Some(ReadVnc(vm.config)), [], false, false, false)
  }

  // Between passes, a bare machine with this record and this VM.
  ghost predicate BareWith(s: State, id: string, m: Record, vm: VM) {
    && Restful(s) && s.born == {} && s.d == Bare([], []) && s.stored == m && id in s.w.vms && s.w.vms[id] == vm
    && s.w.vms.Keys == {id} && CreatedIds(s.w.log) == {id} && s.w.secret == Some("") && s.w.reliable
  }

  lemma {:induction false} TwoPasses(lib: Lib, vnc: Option<Vnc>, id: string, vm: VM) returns (run: seq<State>)
    requires vm.power == PoweredOff && Contiguous(vm.config)
    ensures Run(lib, run) && run[0].stored.vnc == vnc && BareWith(Last(run), id, SettingsRead(id, vnc, vm), vm)
  {
    var cloned := FirstPassClones(lib, Bare([], []), vnc, id, vm);
    var started := PassStarts(lib, cloned);
    var reading := ComesTo(lib, started, AtVnc);
    run := ReadsSettings(lib, reading);
    OneCreated([], id, "machine", "template");
    assert Last(run).w.log == [] + [Created(id, "machine", "template")];
  }

  // The next pass of such a machine comes to the VNC stage.
  lemma {:induction false} ComesToVnc(lib: Lib, run: seq<State>) returns (run': seq<State>)
    requires Run(lib, run) && Restful(Last(run)) && Last(run).d == Bare([], [])
    requires Last(run).stored.vmID.Some? && Last(run).stored.vmID.value in Last(run).w.vms
    requires Last(run).stored.adapters == None && Last(run).stored.sharedFolders == []
    ensures Run(lib, run') && run <= run' && Last(run') == Started(Last(run)).(pc := AtVnc)
  {
    var started := PassStarts(lib, run);
    run' := ComesTo(lib, started, AtVnc);
  }

  /** On a fresh clone without VNC settings, a spec that sets anything dies in its third pass. */
  lemma {:induction false} FreshCloneSticks(lib: Lib, spec: Vnc, id: string) returns (run: seq<State>)
    requires spec.enabled.Some? || spec.port.Some? || spec.password.Some?
    ensures Run(lib, run) && Last(run).pc == Finishing && Last(run).out == Panic && Stuck(Last(run).stored)
  {
    var vm := CloneOf(map[], map[]);
    assert Occupied(vm.config) == {};
    var waiting := TwoPasses(lib, Some(spec), id, vm);
    var reached := ComesToVnc(lib, waiting);
    var s := Last(reached);
    var s' := s.(pc := Finishing, out := Panic);
    assert StageStep(lib, s, s');
    RunGrows(lib, reached, s');
    run := reached + [s'];
  }

  // A spec that asks for a generated port and nothing else.
  const GENERATE_PORT := Vnc(None, None, None, Some(true), None)

  function WithPort(port: nat): Vnc {
    GENERATE_PORT.(port := Some(Decimal(port)))
  }

  lemma {:induction false} PortFills(port: nat)
    requires FIRST_PORT <= port < FIRST_PORT + PORTS
    ensures Filled(GENERATE_PORT, WithPort(port)) && !Agrees(GENERATE_PORT, ReadVnc(map[]))
  {
    assert PortInRange(Decimal(port));
  }

  // The calls begin to fail.
  lemma {:induction false} CallsFail(lib: Lib, run: seq<State>) returns (run': seq<State>)
    requires Run(lib, run) && Last(run).pc == Idle && Last(run).alive && !Last(run).stored.deleting
    ensures Run(lib, run') && run <= run' && Last(run') == Last(run).(w := Last(run).w.(reliable := false))
  {
    var s := Last(run);
    var s' := s.(w := s.w.(reliable := false));
    assert OthersStep(s, s');
    RunGrows(lib, run, s');
    run' := run + [s'];
  }

  // A VNC stage that generates a port and writes nothing.
  lemma {:induction false} GenerationFails(lib: Lib, run: seq<State>, id: string) returns (run': seq<State>)
    requires Run(lib, run) && Last(run).pc == AtVnc && Last(run).mem.vmID == Some(id) && id in Last(run).w.vms
    requires Last(run).mem.vnc == Some(GENERATE_PORT) && Last(run).mem.vncStatus == Some(ReadVnc(map[]))
    requires !Last(run).w.reliable && Last(run).alive
    ensures Run(lib, run') && run <= run'
    ensures var s := Last(run);
            Last(run') == Patch(s.(pc := Finishing, out := Error, mem := s.mem.(vnc := Some(WithPort(FIRST_PORT)))))
  {
    var s := Last(run);
    var s' := s.(pc := Finishing, out := Error, mem := s.mem.(vnc := Some(WithPort(FIRST_PORT))));
    PortFills(FIRST_PORT);
    WroteNothing(s.w, id, VncParams(WithPort(FIRST_PORT)));
    assert VncWritten(id, s.mem, s.w, s'.mem, s'.w, Error);
    assert StageStep(lib, s, s');
    run' := PassEnds(lib, run, s');
  }

  /**
   A spec that only asks for a generated port, one write that fails, and the record is stuck, though
   the VM showed all that the spec had set: the port is stored with the spec, the status lacks it.
   */
  lemma {:induction false} FailedGenerationStored(lib: Lib, id: string) returns (run: seq<State>)
    ensures Run(lib, run) && Last(run).pc == Idle && Last(run).alive && Stuck(Last(run).stored)
    ensures run[0].stored.vnc == Some(GENERATE_PORT) && Last(run).stored.vnc == Some(WithPort(FIRST_PORT))
  {
    var vm := CloneOf(map[], map[]);
    assert Occupied(vm.config) == {};
    var waiting := TwoPasses(lib, Some(GENERATE_PORT), id, vm);
    var failing := CallsFail(lib, waiting);
    var reached := ComesToVnc(lib, failing);
    run := GenerationFails(lib, reached, id);
  }

  // A VNC stage that generates this port and writes it.
  lemma {:induction false} GeneratesAndWrites(lib: Lib, run: seq<State>, id: string, port: nat) returns (run': seq<State>)
    requires Run(lib, run) && Last(run).pc == AtVnc && Last(run).mem.vmID == Some(id) && id in Last(run).w.vms
    requires Last(run).mem.vnc == Some(GENERATE_PORT) && Last(run).mem.vncStatus == Some(ReadVnc(map[]))
    requires FIRST_PORT <= port < FIRST_PORT + PORTS
    ensures Run(lib, run') && run <= run'
    ensures var s, s' := Last(run), Last(run');
            && s'.pc == AtBootstrap && s' == s.(pc := AtBootstrap, mem := s'.mem, w := s'.w, out := Continue)
            && WroteAll(s.w, s'.w, id, VncParams(WithPort(port))) && s'.w.vms.Keys == s.w.vms.Keys
  {
    var s := Last(run);
    var w' := WritesThrough(s.w, id, VncParams(WithPort(port)));
    var m' := s.mem.(vnc := Some(WithPort(port)), vncStatus := Some(ReadVnc(w'.vms[id].config)));
    var s' := s.(pc := AtBootstrap, mem := m', w := w', out := Continue);
    PortFills(port);
    assert VncWritten(id, s.mem, s.w, m', w', Continue);
    assert StageStep(lib, s, s');
    RunGrows(lib, run, s');
    run' := run + [s'];
  }

  // The port is among what was written.
  lemma {:induction false} PortLogged(w: World, w': World, id: string, port: nat)
    requires WroteAll(w, w', id, VncParams(WithPort(port)))
    ensures exists i :: |w.log| <= i < |w'.log| && w'.log[i] == Configured(id, RemoteDisplay(false, Port), Decimal(port))
  {
    var key := RemoteDisplay(false, Port);
    assert key in VncParams(WithPort(port)) && VncParams(WithPort(port))[key] == Decimal(port);
    KeysSinceMeans(w'.log, |w.log|, key);
  }

  // A machine that asks for a generated port and read no settings, between passes.
  ghost predicate AwaitsPort(s: State, id: string) {
    && Restful(s) && s.d == Bare([], []) && s.stored.vmID == Some(id) && id in s.w.vms
    && s.stored.adapters == None && s.stored.sharedFolders == []
    && s.stored.vnc == Some(GENERATE_PORT) && s.stored.vncStatus == Some(ReadVnc(map[]))
  }

  ghost predicate PortWritten(log: seq<Event>, i: nat, id: string, port: nat) {
    i < |log| && log[i] == Configured(id, RemoteDisplay(false, Port), Decimal(port))
  }

  // A pass generates a port, writes it and loses its patch.
  lemma {:induction false} PortLost(lib: Lib, run: seq<State>, id: string, port: nat) returns (run': seq<State>, i: nat)
    requires Run(lib, run) && AwaitsPort(Last(run), id) && FIRST_PORT <= port < FIRST_PORT + PORTS
    ensures Run(lib, run') && AwaitsPort(Last(run'), id) && Last(run).w.log <= Last(run').w.log
    ensures |Last(run).w.log| <= i && PortWritten(Last(run').w.log, i, id, port)
  {
    var reached := ComesToVnc(lib, run);
    var written := GeneratesAndWrites(lib, reached, id, port);
    PortLogged(Last(reached).w, Last(written).w, id, port);
    i :| |Last(reached).w.log| <= i < |Last(written).w.log|
      && Last(written).w.log[i] == Configured(id, RemoteDisplay(false, Port), Decimal(port));
    var lost := Last(written).(pc := Idle, lost := Last(written).lost + Last(written).born, born := {});
    assert LoseStep(Last(written), lost);
    RunGrows(lib, written, lost);
    run' := written + [lost];
  }

  /** If the pass that generated a port loses its patch, the next may write any other. */
  lemma {:induction false} TwoPortsWritten(lib: Lib, id: string, a: nat, b: nat) returns (run: seq<State>, i: nat, j: nat)
    requires FIRST_PORT <= a < FIRST_PORT + PORTS && FIRST_PORT <= b < FIRST_PORT + PORTS
    ensures Run(lib, run) && i < j && PortWritten(Last(run).w.log, i, id, a) && PortWritten(Last(run).w.log, j, id, b)
  {
    var vm := CloneOf(map[], map[]);
    assert Occupied(vm.config) == {};
    var waiting := TwoPasses(lib, Some(GENERATE_PORT), id, vm);
    var once: seq<State>;
    once, i := PortLost(lib, waiting, id, a);
    run, j := PortLost(lib, once, id, b);
  }

  /******* Rest, and a VM that vanishes *******/

  // The bootstrap data of a bare machine.
  lemma {:induction false} BootsBare(lib: Lib, run: seq<State>, id: string) returns (run': seq<State>)
    requires Run(lib, run) && Last(run).pc == AtBootstrap && Last(run).out == Continue && Last(run).d == Bare([], [])
    requires Last(run).mem.vmID == Some(id) && id in Last(run).w.vms && Last(run).mem.providerID.Some?
    requires !Last(run).mem.bootstrapped && Last(run).w.secret.Some?
    ensures Run(lib, run') && run <= run'
    ensures var s, s' := Last(run), Last(run');
            && s' == s.(pc := AtPower, mem := s.mem.(bootstrapped := true), w := s'.w)
            && s'.w == s.w.(vms := s'.w.vms, log := s'.w.log) && s'.w.vms.Keys == s.w.vms.Keys
            && s'.w.vms[id] == s.w.vms[id].(config := s'.w.vms[id].config) && CreatedIds(s'.w.log) == CreatedIds(s.w.log)
  {
    var s := Last(run);
    var doc := Document(id, s.d.name, None, []);
    var params := BootParams(lib, s.w.secret.value, s.mem.providerID.value, doc);
    var w' := WritesThrough(s.w, id, params);
    var s' := s.(pc := AtPower, mem := s.mem.(bootstrapped := true), w := w');
    assert Describes(doc, id, s.d.name, Ethernets(s.d), s.w.addresses);
    assert BootstrapStage(lib, s.d, id, s.mem, s.w, s'.mem, w', Continue);
    assert StageStep(lib, s, s');
    RunGrows(lib, run, s');
    run' := run + [s'];
    WritesTend(s.w, w', id, params);
    NoneCreated(s.w.log, w'.log);
  }

  // From power to the end of a pass that the guest does not answer yet.
  lemma {:induction false} TurnsOnAndWaits(lib: Lib, run: seq<State>, id: string) returns (run': seq<State>)
    requires Run(lib, run) && Last(run).pc == AtPower && Last(run).out == Continue && Last(run).alive
    requires Last(run).mem.vmID == Some(id) && id in Last(run).w.vms && Last(run).mem.state == Some(PoweredOff)
    requires Last(run).mem.addresses == [] && Last(run).w.vms[id].guest == []
    ensures Run(lib, run') && run <= run'
    ensures var s := Last(run);
            Last(run') == Patch(s.(pc := Finishing, out := Requeue, mem := s.mem.(state := Some(PoweredOn)), w := SetPower(s.w, id, PoweredOn)))
  {
    var on := TurnsOn(lib, Last(run));
    RunGrows(lib, run, on);
    var s' := on.(pc := Finishing, out := Requeue);
    assert AddressesStage(lib, on.d, id, on.mem, on.w, on.mem, on.w, Requeue);
    assert StageStep(lib, on, s');
    run' := PassEnds(lib, run + [on], s');
  }

  lemma {:induction false} ComesToBootstrap(lib: Lib, id: string, vm: VM) returns (run: seq<State>)
    requires vm.power == PoweredOff && Contiguous(vm.config)
    ensures Run(lib, run) && Last(run).pc == AtBootstrap && Last(run).out == Continue && Last(run).alive && Last(run).w.upstream
    ensures Last(run).d == Bare([], []) && Last(run).mem == SettingsRead(id, None, vm) && Last(run).stored == SettingsRead(id, None, vm)
    ensures Last(run).w.vms.Keys == {id} && Last(run).w.vms[id] == vm && CreatedIds(Last(run).w.log) == {id}
    ensures Last(run).w.secret.Some? && Last(run).born == {}
  {
    var waiting := TwoPasses(lib, None, id, vm);
    var started := PassStarts(lib, waiting);
    run := ComesTo(lib, started, AtBootstrap);
  }

  // Where a bare machine is after its power was turned on, and the pass waited for the guest.
  lemma {:induction false} BareAtRest(s: State, end: State, id: string, vm: VM)
    requires s.d == Bare([], []) && s.alive && s.w.upstream && s.born == {}
    requires s.stored == SettingsRead(id, None, vm) && s.mem == s.stored.(bootstrapped := true)
    requires s.w.vms.Keys == {id} && s.w.vms[id].folders == vm.folders && CreatedIds(s.w.log) == {id}
    requires end == Patch(s.(pc := Finishing, out := Requeue, mem := s.mem.(state := Some(PoweredOn)), w := SetPower(s.w, id, PoweredOn)))
    ensures Waiting(end) && end.d == Bare([], []) && end.stored.vmID == Some(id)
    ensures end.w.vms.Keys == {id} && CreatedIds(end.w.log) == {id} && end.w.vms[id].folders == vm.folders
  {
    NoneCreatedByPower(s.w.log, end.w.log, id);
  }

  /** A bare machine comes to rest in three passes. */
  lemma {:induction false} ComesToRest(lib: Lib, id: string, vm: VM) returns (run: seq<State>)
    requires vm.power == PoweredOff && Contiguous(vm.config) && vm.guest == []
    ensures Run(lib, run) && Waiting(Last(run)) && Last(run).d == Bare([], []) && Last(run).stored.vmID == Some(id)
    ensures Last(run).w.vms.Keys == {id} && CreatedIds(Last(run).w.log) == {id} && Last(run).w.vms[id].folders == vm.folders
  {
    var reached := ComesToBootstrap(lib, id, vm);
    var booted := BootsBare(lib, reached, id);
    run := TurnsOnAndWaits(lib, booted, id);
    BareAtRest(Last(booted), Last(run), id, vm);
  }

  lemma {:induction false} NoneCreatedByPower(log: seq<Event>, log': seq<Event>, id: string)
    requires log' == log + [TurnedOn(id)]
    ensures CreatedIds(log') == CreatedIds(log)
  {
    NoneCreated(log, log');
  }

  /** From a new record: a machine at rest, its VM removed by somebody else, and the next one turned on without bootstrap data. */
  lemma {:induction false} StaleVMHappens(lib: Lib, id: string, successor: string) returns (run: seq<State>)
    requires successor != id
    ensures Run(lib, run)
    ensures var log := Last(run).w.log;
            log != [] && log[|log| - 1] == TurnedOn(successor) && !Booted(log[..|log| - 1], successor)
  {
    var vm := CloneOf(map[], map[]);
    assert Occupied(vm.config) == {};
    var rested := ComesToRest(lib, id, vm);
    run := StaleVMTurnedOn(lib, rested, successor);
  }

  /******* Folders *******/

  /** A machine that asks for no folders rests with those it was cloned with. */
  lemma {:induction false} EmptySpecIgnored(lib: Lib, id: string) returns (run: seq<State>)
    ensures Run(lib, run) && Waiting(Last(run)) && Last(run).stored.vmID == Some(id) && id in Last(run).w.vms
    ensures Last(run).w.vms[id].folders == map["left" := Folder("/left", 4)] != Target(Last(run).d.folders)
  {
    var vm := CloneOf(map[], map["left" := Folder("/left", 4)]);
    assert Occupied(vm.config) == {};
    run := ComesToRest(lib, id, vm);
    OnlyEmptyIsEmpty([]);
    assert "left" in vm.folders;
  }

  // One folder, asked for with flags 1, on a clone that has it with flags 4.
  const ASKED := SharedFolder("src", "/src", Some(1))
  const FOUND := SharedFolder("src", "/src", Some(4))

  lemma {:induction false} OneFolder(f: SharedFolder)
    ensures LastWins([f]) == map[f.id := f]
  {
    assert [f][..0] == [];
  }

  lemma {:induction false} ReadsFolder(d: Desired, id: string, m: Record, w: World)
    requires d.folders == [ASKED] && m.sharedFolders == [] && id in w.vms && w.vms[id].folders == map["src" := Folder("/src", 4)]
    ensures FoldersStage(d, id, m, w, m.(sharedFolders := [FOUND]), w, Continue)
    ensures SameFolders(d.folders, [FOUND]) && w.vms[id].folders != Target(d.folders)
  {
    OneFolder(ASKED);
    OneFolder(FOUND);
    assert LastWins([FOUND]) == Reported(w.vms[id].folders);
    OnlyEmptyIsEmpty([ASKED]);
    assert SameFolders([ASKED], [FOUND]);
    assert Target([ASKED])["src"].flags == 1;
    assert SameFolders([ASKED], m.sharedFolders) == SameFolders(m.sharedFolders, [ASKED]);
  }

  // A pass that reads the folder, finds its path right, and ends with the VNC settings.
  lemma {:induction false} FolderPass(lib: Lib, run: seq<State>, id: string) returns (run': seq<State>)
    requires Run(lib, run) && Restful(Last(run)) && Last(run).d == Bare([], [ASKED])
    requires Last(run).stored.vmID == Some(id) && id in Last(run).w.vms && Last(run).stored.vncStatus.None?
    requires Last(run).stored.sharedFolders == [] && Last(run).w.vms[id].folders == map["src" := Folder("/src", 4)]
    requires Last(run).stored.adapters.None?
    ensures Run(lib, run') && Restful(Last(run')) && Last(run').d == Last(run).d && Last(run').w == Last(run).w
    ensures Last(run').stored.vmID == Some(id) && Last(run').stored.sharedFolders == [FOUND]
    ensures SameFolders([ASKED], [FOUND]) && Last(run').w.vms[id].folders != Target([ASKED])
  {
    var started := PassStarts(lib, run);
    var reached := ComesTo(lib, started, AtFolders);
    var s := Last(reached);
    var s' := s.(pc := AtVnc, mem := s.mem.(sharedFolders := [FOUND]));
    ReadsFolder(s.d, id, s.mem, s.w);
    assert StageStep(lib, s, s');
    RunGrows(lib, reached, s');
    run' := ReadsSettings(lib, reached + [s']);
  }

  /** A machine whose status shows the folder asked for, and whose VM has it with other flags. */
  lemma {:induction false} FlagsIgnored(lib: Lib, id: string) returns (run: seq<State>)
    ensures Run(lib, run) && Restful(Last(run)) && Last(run).stored.vmID == Some(id) && id in Last(run).w.vms
    ensures var s := Last(run);
            SameFolders(s.d.folders, s.stored.sharedFolders) && s.w.vms[id].folders != Target(s.d.folders)
  {
    var vm := CloneOf(map[], map["src" := Folder("/src", 4)]);
    assert Occupied(vm.config) == {};
    var cloned := FirstPassClones(lib, Bare([], [ASKED]), None, id, vm);
    run := FolderPass(lib, cloned, id);
  }

  /******* Adapters *******/

  function Nic(kind: string, vmnet: string): NetAdapter {
    NetAdapter(Some(kind), Some(vmnet), None)
  }

  const NAT := Nic("nat", "vmnet8")
  const BRIDGED := Nic("bridged", "vmnet0")
  const HOST_ONLY := Nic("hostOnly", "vmnet1")

  // Reads the adapters and writes the missing ones.
  lemma {:induction false} AddsAdapters(lib: Lib, run: seq<State>, id: string, spec: seq<NetAdapter>, list: seq<NetAdapter>)
    returns (run': seq<State>)
    requires Run(lib, run) && Last(run).pc == AtAdapters && Last(run).alive && Last(run).mem.vmID == Some(id) && id in Last(run).w.vms
    requires WantedAdapters(Last(run).d) == Some(spec) && AllContained(Last(run).mem.adapters.GetOr([]), spec) == Some(false)
    requires ListsNics(list, Last(run).w.vms[id].config) && forall i :: 0 <= i < |spec| ==> !Troubled(list, spec[i])
    ensures Run(lib, run') && run <= run'
    ensures var s, s' := Last(run), Last(run');
            && s' == Patch(s.(pc := Finishing, out := Requeue, mem := s.mem.(adapters := Some(list)), w := s'.w))
            && s'.w == s.w.(vms := s'.w.vms, log := s'.w.log) && id in s'.w.vms
            && s'.w.vms[id] == s.w.vms[id].(config := s.w.vms[id].config + MissingParams(list, spec, |list|, |spec|))
  {
    var s := Last(run);
    var w' := WritesThrough(s.w, id, MissingParams(list, spec, |list|, |spec|));
    var s' := s.(pc := Finishing, out := Requeue, mem := s.mem.(adapters := Some(list)), w := w');
    assert AdaptersRefreshed(s.d, id, s.mem, s.w, s'.mem, w', Requeue);
    assert StageStep(lib, s, s');
    run' := PassEnds(lib, run, s');
  }

  lemma {:induction false} ComesToAdapters(lib: Lib, run: seq<State>) returns (run': seq<State>)
    requires Run(lib, run) && Restful(Last(run)) && Last(run).d.cpu.None? && Last(run).d.memory.None?
    requires Last(run).stored.vmID.Some? && Last(run).stored.vmID.value in Last(run).w.vms
    ensures Run(lib, run') && run <= run' && Last(run') == Started(Last(run)).(pc := AtAdapters)
  {
    var started := PassStarts(lib, run);
    run' := ComesTo(lib, started, AtAdapters);
  }

  // A whole pass of a machine that lacks adapters.
  lemma {:induction false} AdapterPass(lib: Lib, run: seq<State>, id: string, spec: seq<NetAdapter>, list: seq<NetAdapter>)
    returns (run': seq<State>)
    requires Run(lib, run) && Restful(Last(run)) && Last(run).stored.vmID == Some(id) && id in Last(run).w.vms
    requires Last(run).d == Bare(spec, []) && AllContained(Last(run).stored.adapters.GetOr([]), spec) == Some(false)
    requires list != [] && ListsNics(list, Last(run).w.vms[id].config) && forall i :: 0 <= i < |spec| ==> !Troubled(list, spec[i])
    ensures Run(lib, run') && Restful(Last(run')) && Last(run').stored.vmID == Some(id) && id in Last(run').w.vms
    ensures Last(run').d == Last(run).d && Last(run').stored.adapters == Some(list)
    ensures Last(run').w.vms[id].config == Last(run).w.vms[id].config + MissingParams(list, spec, |list|, |spec|)
  {
    var reached := ComesToAdapters(lib, run);
    run' := AddsAdapters(lib, reached, id, spec, list);
  }

  // The clone, with the first adapter in slot 0.
  function OneNic(): map<Key, string> {
    AdapterParams(0, NAT)
  }

  // After the second was added: it went to slot 2.
  function TwoNics(): map<Key, string> {
    OneNic() + AdapterParams(2, BRIDGED)
  }

  // After the third was written to the same slot.
  function ThirdOverSecond(): map<Key, string> {
    TwoNics() + AdapterParams(2, HOST_ONLY)
  }

  lemma {:induction false} NicsOfOne()
    ensures Occupied(OneNic()) == {0} && NicAt(OneNic(), 0) == NAT && Contiguous(OneNic()) && ListsNics([NAT], OneNic())
  {
    assert [NAT][0] == NAT;
  }

  lemma {:induction false} SlotsOfTwo()
    ensures Occupied(TwoNics()) == {0, 2}
  {
    var config := TwoNics();
    assert config[EthernetKey(0, Present)] == "TRUE" && config[EthernetKey(2, Present)] == "TRUE";
    assert forall key :: key in config ==> key.EthernetKey? && (key.slot == 0 || key.slot == 2);
  }

  lemma {:induction false} NicsOfTwo()
    ensures Occupied(TwoNics()) == {0, 2} && NicAt(TwoNics(), 2) == BRIDGED && ListsNics([NAT, BRIDGED], TwoNics())
  {
    SlotsOfTwo();
    assert NicAt(TwoNics(), 0) == NAT;
    assert [NAT, BRIDGED][0] == NAT && [NAT, BRIDGED][1] == BRIDGED;
  }

  lemma {:induction false} Distinct()
    ensures Same(NAT, BRIDGED) == Some(false) && Same(NAT, HOST_ONLY) == Some(false) && Same(BRIDGED, HOST_ONLY) == Some(false)
    ensures Same(BRIDGED, NAT) == Some(false)
  {
    assert |"nat"| == 3 && |"bridged"| == 7 && |"hostOnly"| == 8;
  }

  lemma {:induction false} ContainsTwo(a: NetAdapter, b: NetAdapter, c: NetAdapter)
    ensures Contains([a], c) == Same(a, c)
    ensures Contains([a, b], c) == if Same(a, c) == Some(false) then Same(b, c) else Same(a, c)
  {
    assert [a][1..] == [] && [a, b][1..] == [b] && [b][1..] == [];
  }

  lemma {:induction false} SecondMissing()
    ensures AllContained([], [NAT, BRIDGED]) == Some(false)
    ensures Contains([NAT], NAT) == Some(true) && Contains([NAT], BRIDGED) == Some(false)
    ensures MissingParams([NAT], [NAT, BRIDGED], 1, 2) == AdapterParams(2, BRIDGED)
  {
    Distinct();
    ContainsTwo(NAT, NAT, NAT);
    ContainsTwo(NAT, NAT, BRIDGED);
    assert MissingParams([NAT], [NAT, BRIDGED], 1, 1) == map[];
  }

  lemma {:induction false} ThirdMissing()
    ensures AllContained([NAT], [HOST_ONLY, NAT, BRIDGED]) == Some(false)
    ensures Contains([NAT, BRIDGED], HOST_ONLY) == Some(false)
    ensures Contains([NAT, BRIDGED], NAT) == Some(true) && Contains([NAT, BRIDGED], BRIDGED) == Some(true)
    ensures forall i :: 0 <= i < 3 ==> !Troubled([NAT, BRIDGED], [HOST_ONLY, NAT, BRIDGED][i])
  {
    Distinct();
    ContainsTwo(NAT, BRIDGED, HOST_ONLY);
    ContainsTwo(NAT, BRIDGED, NAT);
    ContainsTwo(NAT, BRIDGED, BRIDGED);
  }

  lemma {:induction false} ThirdParams()
    ensures MissingParams([NAT, BRIDGED], [HOST_ONLY, NAT, BRIDGED], 2, 3) == AdapterParams(2, HOST_ONLY)
  {
    ThirdMissing();
    var spec, list := [HOST_ONLY, NAT, BRIDGED], [NAT, BRIDGED];
    assert MissingParams(list, spec, 2, 0) == map[];
    assert MissingParams(list, spec, 2, 1) == AdapterParams(2, HOST_ONLY);
  }

  lemma {:induction false} KeysOverwritten(key: Key)
    requires key in ThirdOverSecond()
    ensures key.EthernetKey? && (key.slot == 0 || key.slot == 2)
  {
  }

  lemma {:induction false} NicsOverwritten()
    ensures NicAt(ThirdOverSecond(), 0) == NAT && NicAt(ThirdOverSecond(), 2) == HOST_ONLY
  {
  }

  lemma {:induction false} SecondGone()
    ensures NicAt(ThirdOverSecond(), 2) == HOST_ONLY
    ensures !Held(ThirdOverSecond(), BRIDGED)
  {
    var config := ThirdOverSecond();
    Distinct();
    NicsOverwritten();
    forall slot | slot in Occupied(config)
      ensures slot == 0 || slot == 2
    {
      KeysOverwritten(EthernetKey(slot, Present));
    }
  }

  lemma {:induction false} SecondWritten()
    ensures AllContained([], [NAT, BRIDGED]) == Some(false)
    ensures forall i :: 0 <= i < 2 ==> !Troubled([NAT], [NAT, BRIDGED][i])
    ensures OneNic() + MissingParams([NAT], [NAT, BRIDGED], 1, 2) == TwoNics()
  {
    SecondMissing();
  }

  // Two passes of a machine that asks for two adapters and was cloned with the first.
  lemma {:induction false} SecondAdded(lib: Lib, id: string) returns (run: seq<State>)
    ensures Run(lib, run) && Restful(Last(run)) && Last(run).stored.vmID == Some(id) && id in Last(run).w.vms
    ensures Last(run).d == Bare([NAT, BRIDGED], []) && Last(run).stored.adapters == Some([NAT])
    ensures Last(run).w.vms[id].config == TwoNics()
  {
    NicsOfOne();
    SecondWritten();
    var cloned := FirstPassClones(lib, Bare([NAT, BRIDGED], []), None, id, CloneOf(OneNic(), map[]));
    run := AdapterPass(lib, cloned, id, [NAT, BRIDGED], [NAT]);
  }

  // The user edits the list of adapters.
  lemma {:induction false} Edited(lib: Lib, run: seq<State>, spec: seq<NetAdapter>) returns (run': seq<State>)
    requires Run(lib, run) && Restful(Last(run))
    ensures Run(lib, run') && Last(run') == Last(run).(d := Bare(spec, []))
  {
    var s := Last(run).(d := Bare(spec, []));
    assert OthersStep(Last(run), s);
    RunGrows(lib, run, s);
    run' := run + [s];
  }

  lemma {:induction false} ThirdAdded(lib: Lib, run: seq<State>, id: string) returns (run': seq<State>)
    requires Run(lib, run) && Restful(Last(run)) && Last(run).stored.vmID == Some(id) && id in Last(run).w.vms
    requires Last(run).d == Bare([HOST_ONLY, NAT, BRIDGED], []) && Last(run).stored.adapters == Some([NAT])
    requires Last(run).w.vms[id].config == TwoNics()
    ensures Run(lib, run') && Last(run').d == Last(run).d && Last(run').stored.vmID == Some(id) && id in Last(run').w.vms
    ensures Last(run').w.vms[id].config == ThirdOverSecond()
  {
    NicsOfTwo();
    ThirdMissing();
    ThirdParams();
    run' := AdapterPass(lib, run, id, [HOST_ONLY, NAT, BRIDGED], [NAT, BRIDGED]);
  }

  /**
   The second of two adapters was added past a gap.  Then the user puts a third in front of both:
   the next pass writes it over the second, and the VM has lost an adapter that the spec asks for.
   */
  lemma {:induction false} AdapterOverwritten(lib: Lib, id: string) returns (run: seq<State>)
    ensures Run(lib, run) && Last(run).stored.vmID == Some(id) && id in Last(run).w.vms
    ensures Last(run).d == Bare([HOST_ONLY, NAT, BRIDGED], []) && NicAt(Last(run).w.vms[id].config, 2) == HOST_ONLY
    ensures !Held(Last(run).w.vms[id].config, BRIDGED)
  {
    SecondGone();
    var added := SecondAdded(lib, id);
    var edited := Edited(lib, added, [HOST_ONLY, NAT, BRIDGED]);
    run := ThirdAdded(lib, edited, id);
  }
}
