/** Passes bring a machine to rest: each one lowers its rank, or ends with everything in place. */
module Convergence {
  import opened Options
  import opened Api
  import opened Cloud
  import opened Lifecycle
  import opened Folders
  import opened Adapters
  import opened Claims
  import opened VncSettings
  import opened VncRounds
  import opened Bootstrap
  import opened Addresses
  import opened System
  import opened Frames
  import opened Moves
  import opened Quiescence
  import opened Progress

  // Everything is in place and the machine is ready, with its provider id.
  ghost predicate Rested(d: Desired, m: Record, w: World) {
    && AtRest(d, m, w) && m.ready && (Ethernets(d) != [] ==> m.addresses != [])
    && m.providerID == Some(ProviderID(m.vmID.value))
  }

  // What the VM shows is what the rest of the pass needs it to show.
  ghost predicate VMFacing(lib: Lib, eager: bool, d: Desired, m: Record, vm: VM, pc: Pc) {
    && m.state == Some(vm.power)
    && (Order(pc) <= 5 ==> VncReadable(m, vm))
    && (if Order(pc) <= 7 then eager && vm.power != PoweredOff ==> GuestReports(lib, d, vm) else vm.power != PoweredOff)
  }

  // The adapters as they will be stored; before their stage, those that were.
  ghost predicate AdaptersFacing(d: Desired, m: Record, w: World, pc: Pc) {
    if Order(pc) <= 2 then Persist(m) == m else AdaptersAtRest(d, Persist(m), w)
  }

  // A machine on course as the pass comes to the stage `pc`.  An eager pass has nobody to wait for:
  // claims are answered, and the guest of a VM that is on reports.
  ghost predicate Facing(lib: Lib, eager: bool, d: Desired, m: Record, w: World, pc: Pc) {
    && WellFormed(d) && OnCourse(d, m, w) && Responsive(d, w) && m.vmID.Some? && m.finalizer
    && VMFacing(lib, eager, d, m, w.vms[m.vmID.value], pc)
    && AdaptersFacing(d, m, w, pc)
    && (if Order(pc) <= 3 then eager ==> ClaimsAnswered(d, w) else ClaimsAtRest(d, w))
    && (Order(pc) > 1 ==> Sized(d, m))
    && (Order(pc) > 4 ==> SameFolders(d.folders, m.sharedFolders))
    && (Order(pc) > 5 ==> VncAtRest(m))
    && (Order(pc) > 6 ==> m.bootstrapped)
  }

  /******* From one stage to the next, by what the stage changed *******/

  lemma {:induction false} FacingAdapters(lib: Lib, eager: bool, d: Desired, m: Record, w: World, m': Record, w': World)
    requires Facing(lib, eager, d, m, w, AtHardware) && m' == m.(hardware := m'.hardware) && Sized(d, m') && OnCourse(d, m', w')
    requires w' == w.(vms := w'.vms, log := w'.log)
    requires VMFacing(lib, eager, d, m, w'.vms[m.vmID.value], AtHardware)
    ensures Facing(lib, eager, d, m', w', AtAdapters)
  {
  }

  lemma {:induction false} FacingClaims(lib: Lib, eager: bool, d: Desired, m: Record, w: World, m': Record)
    requires Facing(lib, eager, d, m, w, AtAdapters) && m' == m.(adapters := m'.adapters) && OnCourse(d, m', w)
    requires AdaptersAtRest(d, Persist(m'), w)
    ensures Facing(lib, eager, d, m', w, AtClaims)
  {
  }

  lemma {:induction false} FacingFolders(lib: Lib, eager: bool, d: Desired, m: Record, w: World, w': World)
    requires Facing(lib, eager, d, m, w, AtClaims) && w' == w.(claims := w'.claims, claimLog := w'.claimLog)
    requires OnCourse(d, m, w') && ClaimsAtRest(d, w')
    ensures Facing(lib, eager, d, m, w', AtFolders)
  {
  }

  lemma {:induction false} FacingVnc(lib: Lib, eager: bool, d: Desired, m: Record, w: World, m': Record)
    requires Facing(lib, eager, d, m, w, AtFolders) && m' == m.(sharedFolders := m'.sharedFolders) && OnCourse(d, m', w)
    requires SameFolders(d.folders, m'.sharedFolders)
    ensures Facing(lib, eager, d, m', w, AtVnc)
  {
  }

  // The VM is the one that was, but for keys that are no adapter's.
  ghost predicate SameVM(vm: VM, vm': VM) {
    vm'.power == vm.power && vm'.guest == vm.guest && Occupied(vm'.config) == Occupied(vm.config)
  }

  lemma {:induction false} FacingBootstrap(lib: Lib, eager: bool, d: Desired, m: Record, w: World, m': Record, w': World)
    requires Facing(lib, eager, d, m, w, AtVnc) && m' == m.(vnc := m'.vnc, vncStatus := m'.vncStatus) && VncAtRest(m') && OnCourse(d, m', w')
    requires w' == w.(vms := w'.vms, log := w'.log) && SameVM(w.vms[m.vmID.value], w'.vms[m.vmID.value])
    ensures Facing(lib, eager, d, m', w', AtBootstrap)
  {
  }

  lemma {:induction false} FacingPower(lib: Lib, eager: bool, d: Desired, m: Record, w: World, m': Record, w': World)
    requires Facing(lib, eager, d, m, w, AtBootstrap) && m' == m.(bootstrapped := true) && OnCourse(d, m', w')
    requires w' == w.(vms := w'.vms, log := w'.log) && SameVM(w.vms[m.vmID.value], w'.vms[m.vmID.value])
    ensures Facing(lib, eager, d, m', w', AtPower)
  {
  }

  lemma {:induction false} FacingAddresses(lib: Lib, eager: bool, d: Desired, m: Record, w: World, m': Record, w': World)
    requires Facing(lib, eager, d, m, w, AtPower) && m' == m.(state := m'.state) && OnCourse(d, m', w')
    requires w' == w.(vms := w'.vms, log := w'.log)
    requires var vm, vm' := w.vms[m.vmID.value], w'.vms[m.vmID.value];
             m'.state == Some(vm'.power) && vm'.power != PoweredOff && Occupied(vm'.config) == Occupied(vm.config)
    ensures Facing(lib, eager, d, m', w', AtAddresses)
  {
  }

  /******* What each stage does to a machine on course *******/

  lemma {:induction false} HardwareFaced(lib: Lib, eager: bool, d: Desired, id: string, m: Record, w: World, m': Record, w': World, out: Outcome)
    requires m.vmID == Some(id) && Facing(lib, eager, d, m, w, AtHardware) && HardwareStage(d, id, m, w, m', w', out)
    ensures Advances(d, m, w, m', w', out)
    ensures out == Continue && Facing(lib, eager, d, m', w', AtAdapters)
  {
    HardwareAdvances(d, id, m, w, m', w', out);
    HardwareFrame(d, id, m, w, m', w', out);
    FacingAdapters(lib, eager, d, m, w, m', w');
  }

  lemma {:induction false} AdaptersFaced(lib: Lib, eager: bool, d: Desired, id: string, m: Record, w: World, m': Record, w': World, out: Outcome)
    requires m.vmID == Some(id) && Facing(lib, eager, d, m, w, AtAdapters) && AdaptersStage(d, id, m, w, m', w', out)
    ensures Advances(d, m, w, m', w', out)
    ensures out == Continue ==> Facing(lib, eager, d, m', w', AtClaims)
  {
    AdaptersAdvance(d, id, m, w, m', w', out);
    AdaptersFrame(d, id, m, w, m', w', out);
    if out == Continue {
      AdaptersRead(d, id, m, w, m', w');
      FacingClaims(lib, eager, d, m, w, m');
    }
  }

  lemma {:induction false} AdaptersRead(d: Desired, id: string, m: Record, w: World, m': Record, w': World)
    requires m.vmID == Some(id) && Persist(m) == m && AdaptersStage(d, id, m, w, m', w', Continue)
    ensures w' == w && AdaptersAtRest(d, Persist(m'), w)
  {
  }

  lemma {:induction false} ClaimsFaced(lib: Lib, eager: bool, d: Desired, id: string, m: Record, w: World, m': Record, w': World, out: Outcome)
    requires m.vmID == Some(id) && Facing(lib, eager, d, m, w, AtClaims) && ClaimsStage(d, m, w, m', w', out)
    ensures Proceeds(eager, d, m, w, m', w', out)
    ensures out == Continue ==> Facing(lib, eager, d, m', w', AtFolders)
  {
    ClaimsProceed(eager, d, id, m, w, m', w', out);
    ClaimsFrame(d, m, w, m', w', out);
    if out == Continue {
      FacingFolders(lib, eager, d, m, w, w');
    }
  }

  lemma {:induction false} FoldersFaced(lib: Lib, eager: bool, d: Desired, id: string, m: Record, w: World, m': Record, w': World, out: Outcome)
    requires m.vmID == Some(id) && Facing(lib, eager, d, m, w, AtFolders) && FoldersStage(d, id, m, w, m', w', out)
    ensures Advances(d, m, w, m', w', out)
    ensures out == Continue ==> Facing(lib, eager, d, m', w', AtVnc)
  {
    FoldersAdvance(d, id, m, w, m', w', out);
    FoldersFrame(d, id, m, w, m', w', out);
    if out == Continue {
      FacingVnc(lib, eager, d, m, w, m');
    }
  }

  lemma {:induction false} VncFaced(lib: Lib, eager: bool, d: Desired, id: string, m: Record, w: World, m': Record, w': World, out: Outcome)
    requires m.vmID == Some(id) && Facing(lib, eager, d, m, w, AtVnc) && VncStage(d, id, m, w, m', w', out)
    ensures Advances(d, m, w, m', w', out)
    ensures out == Continue ==> Facing(lib, eager, d, m', w', AtBootstrap)
  {
    VncAdvances(d, id, m, w, m', w', out);
    VncFrame(d, id, m, w, m', w', out);
    VncPart(d, id, m, w, m', w', out);
    SameNics(d, m, w.vms[id], w'.vms[id]);
    if out == Continue {
      FacingBootstrap(lib, eager, d, m, w, m', w');
    }
  }

  lemma {:induction false} BootFaced(lib: Lib, eager: bool, d: Desired, id: string, m: Record, w: World, m': Record, w': World, out: Outcome)
    requires m.vmID == Some(id) && Facing(lib, eager, d, m, w, AtBootstrap) && BootstrapStage(lib, d, id, m, w, m', w', out)
    ensures Advances(d, m, w, m', w', out)
    ensures out == Continue && Facing(lib, eager, d, m', w', AtPower)
  {
    BootAdvances(lib, d, id, m, w, m', w', out);
    BootFrame(lib, d, id, m, w, m', w', out);
    BootWritten(lib, d, id, m, w, m', w', out);
    SameNics(d, m, w.vms[id], w'.vms[id]);
    FacingPower(lib, eager, d, m, w, m', w');
  }

  lemma {:induction false} PowerChanged(id: string, m: Record, w: World, m': Record, w': World, out: Outcome)
    requires PowerStage(id, m, w, m', w', out) && out == Continue && id in w.vms
    ensures m' == m.(state := m'.state) && w' == w.(vms := w'.vms, log := w'.log)
    ensures id in w'.vms && w'.vms[id].config == w.vms[id].config && w'.vms[id].guest == w.vms[id].guest
  {
  }

  lemma {:induction false} PowerFaced(lib: Lib, eager: bool, d: Desired, id: string, m: Record, w: World, m': Record, w': World, out: Outcome)
    requires m.vmID == Some(id) && Facing(lib, eager, d, m, w, AtPower) && PowerStage(id, m, w, m', w', out)
    ensures Advances(d, m, w, m', w', out)
    ensures out == Continue && Facing(lib, eager, d, m', w', AtAddresses)
    ensures eager ==> GuestReports(lib, d, w'.vms[id]) || Rank(d, m', w') < Rank(d, m, w)
  {
    PowerAdvances(d, id, m, w, m', w', out);
    PowerChanged(id, m, w, m', w', out);
    FacingAddresses(lib, eager, d, m, w, m', w');
  }

  lemma {:induction false} AddressesFaced(lib: Lib, eager: bool, d: Desired, id: string, m: Record, w: World, m': Record, w': World, out: Outcome)
    requires m.vmID == Some(id) && Facing(lib, eager, d, m, w, AtAddresses) && AddressesStage(lib, d, id, m, w, m', w', out)
    ensures w' == w && OnCourse(d, m', w) && m'.finalizer && Rank(d, m', w) <= Rank(d, m, w)
    ensures if out == Continue then Rested(d, Persist(m'), w) else m' == m && !GuestReports(lib, d, w.vms[id])
  {
    AddressesFound(lib, d, id, m, w, m', w', out);
    AddressesFrame(lib, d, id, m, w, m', w', out);
    if out == Continue {
      FoundIsRest(lib, eager, d, m, w, m');
      ReadyRank(d, m, w, m');
    }
  }

  lemma {:induction false} FoundIsRest(lib: Lib, eager: bool, d: Desired, m: Record, w: World, m': Record)
    requires Facing(lib, eager, d, m, w, AtAddresses)
    requires m' == m.(addresses := m'.addresses, ready := m'.ready, provisioned := m'.provisioned)
    requires m'.ready && (Ethernets(d) != [] ==> m'.addresses != [])
    ensures Rested(d, Persist(m'), w) && OnCourse(d, m', w)
  {
  }

  lemma {:induction false} ReadyRank(d: Desired, m: Record, w: World, m': Record)
    requires m' == m.(addresses := m'.addresses, ready := m'.ready, provisioned := m'.provisioned) && (m.ready ==> m'.ready)
    ensures Rank(d, m', w) <= Rank(d, m, w)
  {
  }

  /******* A whole pass *******/

  // What a pass needs to find when it starts: the calls work, and the VNC settings asked for can be read.
  ghost predicate Patient(s: State) {
    && Responsive(s.d, s.w)
    && (s.stored.vmID.Some? && s.stored.vmID.value in s.w.vms ==> VncReadable(s.stored, s.w.vms[s.stored.vmID.value]))
  }

  // The pass has nobody to wait for: the allocator has answered the claims made so far, and the
  // guest of a VM that is on reports its addresses.
  ghost predicate Favourable(lib: Lib, s: State) {
    && Patient(s) && ClaimsAnswered(s.d, s.w)
    && (s.stored.vmID.Some? && s.stored.vmID.value in s.w.vms ==>
          var vm := s.w.vms[s.stored.vmID.value];
          vm.power != PoweredOff ==> GuestReports(lib, s.d, vm))
  }

  // What passes keep.
  ghost predicate Hopeful(s: State) {
    s.pc == Idle && s.alive && WellFormed(s.d) && OnCourse(s.d, s.stored, s.w) && Persist(s.stored) == s.stored
  }

  ghost predicate SetsOut(lib: Lib, eager: bool, s: State) {
    Hopeful(s) && Patient(s) && (eager ==> Favourable(lib, s))
  }

  // The pass is over with the record `m`: nothing is lost, and an eager one brought the rank below
  // `r`, or everything is in place.
  ghost predicate Accomplished(eager: bool, d: Desired, m: Record, w: World, r: nat) {
    && OnCourse(d, m, w) && Rank(d, m, w) <= r
    && (eager ==> Rank(d, m, w) < r || Rested(d, Persist(m), w))
  }

  ghost predicate AtStage(lib: Lib, eager: bool, s: State, r: nat) {
    && Facing(lib, eager, s.d, s.mem, s.w, s.pc) && Rank(s.d, s.mem, s.w) <= r
    && (eager && s.pc == AtAddresses ==> GuestReports(lib, s.d, s.w.vms[s.mem.vmID.value]) || Rank(s.d, s.mem, s.w) < r)
  }

  // Where a pass that started from `s0` can be.
  ghost predicate Along(lib: Lib, eager: bool, s0: State, s: State) {
    && s.alive && !s.stored.deleting && s.d == s0.d
    && match s.pc
       case Probing => s.mem == s0.stored && s.stored == s0.stored && s.w == s0.w
       case Routing => Probed(s0, s)
       case Creating => Probed(s0, s) && s.mem.finalizer && s.mem.vmID.None?
       case Finishing => Accomplished(eager, s.d, s.mem, s.w, Rank(s0.d, s0.stored, s0.w))
       case _ => Order(s.pc) > 0 && AtStage(lib, eager, s, Rank(s0.d, s0.stored, s0.w))
  }

  ghost predicate Probed(s0: State, s: State) {
    && s.w == s0.w && s.mem == s0.stored.(state := s.mem.state, finalizer := s.mem.finalizer)
    && (s.mem.vmID.Some? ==> s.mem.vmID.value in s.w.vms && s.mem.state == Some(s.w.vms[s.mem.vmID.value].power))
  }

  lemma {:induction false} ProbeAlong(lib: Lib, eager: bool, s0: State, s: State, s': State)
    requires SetsOut(lib, eager, s0) && Along(lib, eager, s0, s) && ProbeStep(s, s')
    ensures Along(lib, eager, s0, s')
  {
  }

  lemma {:induction false} ProbedFaces(lib: Lib, eager: bool, s0: State, s: State)
    requires SetsOut(lib, eager, s0) && Probed(s0, s) && s.d == s0.d && s.mem.vmID.Some? && s.mem.finalizer
    ensures Facing(lib, eager, s.d, s.mem, s.w, AtHardware) && Rank(s.d, s.mem, s.w) == Rank(s0.d, s0.stored, s0.w)
  {
    assert Persist(s.mem) == s.mem;
  }

  lemma {:induction false} RouteAlong(lib: Lib, eager: bool, s0: State, s: State, s': State)
    requires SetsOut(lib, eager, s0) && Along(lib, eager, s0, s) && RouteStep(s, s')
    ensures Along(lib, eager, s0, s')
  {
    assert s'.w.upstream && !s.mem.deleting;
    if s.mem.vmID.Some? {
      ProbedFaces(lib, eager, s0, s');
    }
  }

  lemma {:induction false} CreateAlong(lib: Lib, eager: bool, s0: State, s: State, s': State)
    requires SetsOut(lib, eager, s0) && Along(lib, eager, s0, s) && CreateStep(s, s')
    ensures Along(lib, eager, s0, s')
  {
    if s'.out == Continue {
      NewVMOnCourse(s, s');
      RankBelowMost(s'.d, s'.mem, s'.w);
    }
  }

  lemma {:induction false} NewVMOnCourse(s: State, s': State)
    requires OnCourse(s.d, s.mem, s.w) && CreateStep(s, s') && s'.out == Continue
    ensures OnCourse(s'.d, s'.mem, s'.w) && s'.mem.vmID.Some? && s'.mem.vmID.value in s'.w.vms
  {
  }

  // What a stage makes of a machine that faces it.
  ghost predicate Onward(lib: Lib, eager: bool, pc: Pc, d: Desired, m: Record, w: World, m': Record, w': World, out: Outcome)
    requires m.vmID.Some?
  {
    if pc == AtAddresses then
      && w' == w && OnCourse(d, m', w) && Rank(d, m', w) <= Rank(d, m, w)
      && if out == Continue then Rested(d, Persist(m'), w)
         else m' == m && (m.vmID.value in w.vms ==> !GuestReports(lib, d, w.vms[m.vmID.value]))
    else
      && Proceeds(eager, d, m, w, m', w', out) && m'.vmID.value in w'.vms
      && (out == Continue ==> Facing(lib, eager, d, m', w', AfterStage(pc)))
      && (eager && pc == AtPower ==> GuestReports(lib, d, w'.vms[m'.vmID.value]) || Rank(d, m', w') < Rank(d, m, w))
  }

  lemma {:induction false} EarlyStageFaced(lib: Lib, eager: bool, pc: Pc, d: Desired, m: Record, w: World, m': Record, w': World, out: Outcome)
    requires 0 < Order(pc) <= 2 && Facing(lib, eager, d, m, w, pc) && StageDone(lib, pc, d, m, w, m', w', out)
    ensures Onward(lib, eager, pc, d, m, w, m', w', out)
  {
    var id := m.vmID.value;
    match pc
    case AtHardware => HardwareFaced(lib, eager, d, id, m, w, m', w', out);
    case AtAdapters => AdaptersFaced(lib, eager, d, id, m, w, m', w', out);
  }

  lemma {:induction false} MiddleStageFaced(lib: Lib, eager: bool, pc: Pc, d: Desired, m: Record, w: World, m': Record, w': World, out: Outcome)
    requires 2 < Order(pc) <= 4 && Facing(lib, eager, d, m, w, pc) && StageDone(lib, pc, d, m, w, m', w', out)
    ensures Onward(lib, eager, pc, d, m, w, m', w', out)
  {
    var id := m.vmID.value;
    match pc
    case AtClaims => ClaimsFaced(lib, eager, d, id, m, w, m', w', out);
    case AtFolders => FoldersFaced(lib, eager, d, id, m, w, m', w', out);
  }

  lemma {:induction false} LateStageFaced(lib: Lib, eager: bool, pc: Pc, d: Desired, m: Record, w: World, m': Record, w': World, out: Outcome)
    requires Order(pc) > 4 && Facing(lib, eager, d, m, w, pc) && StageDone(lib, pc, d, m, w, m', w', out)
    ensures Onward(lib, eager, pc, d, m, w, m', w', out)
  {
    var id := m.vmID.value;
    match pc
    case AtVnc => VncFaced(lib, eager, d, id, m, w, m', w', out);
    case AtBootstrap => BootFaced(lib, eager, d, id, m, w, m', w', out);
    case AtPower => PowerFaced(lib, eager, d, id, m, w, m', w', out);
    case AtAddresses => AddressesFaced(lib, eager, d, id, m, w, m', w', out);
  }

  lemma {:induction false} EachStageFaced(lib: Lib, eager: bool, pc: Pc, d: Desired, m: Record, w: World, m': Record, w': World, out: Outcome)
    requires Order(pc) > 0 && Facing(lib, eager, d, m, w, pc) && StageDone(lib, pc, d, m, w, m', w', out)
    ensures Onward(lib, eager, pc, d, m, w, m', w', out)
  {
    if Order(pc) <= 2 {
      EarlyStageFaced(lib, eager, pc, d, m, w, m', w', out);
    } else if Order(pc) <= 4 {
      MiddleStageFaced(lib, eager, pc, d, m, w, m', w', out);
    } else {
      LateStageFaced(lib, eager, pc, d, m, w, m', w', out);
    }
  }

  lemma {:induction false} OnwardAlong(lib: Lib, eager: bool, s0: State, s: State, s': State)
    requires Order(s.pc) > 0 && Along(lib, eager, s0, s) && Advance(s, s')
    requires Onward(lib, eager, s.pc, s.d, s.mem, s.w, s'.mem, s'.w, s'.out)
    ensures Along(lib, eager, s0, s')
  {
  }

  lemma {:induction false} StageAlong(lib: Lib, eager: bool, s0: State, s: State, s': State)
    requires Order(s.pc) > 0 && Along(lib, eager, s0, s) && StageStep(lib, s, s')
    ensures Along(lib, eager, s0, s')
  {
    EachStageFaced(lib, eager, s.pc, s.d, s.mem, s.w, s'.mem, s'.w, s'.out);
    OnwardAlong(lib, eager, s0, s, s');
  }

  lemma {:induction false} StepAlong(lib: Lib, eager: bool, s0: State, s: State, s': State)
    requires SetsOut(lib, eager, s0) && Along(lib, eager, s0, s) && PassStep(lib, s, s') && s'.pc != Idle
    ensures Along(lib, eager, s0, s')
  {
    if StageStep(lib, s, s') {
      if s.pc == Creating {
        assert CreateStep(s, s');
        CreateAlong(lib, eager, s0, s, s');
      } else {
        StageAlong(lib, eager, s0, s, s');
      }
    } else if ProbeStep(s, s') {
      ProbeAlong(lib, eager, s0, s, s');
    } else {
      RouteAlong(lib, eager, s0, s, s');
    }
  }

  lemma {:induction false} PathAlong(lib: Lib, eager: bool, path: seq<State>, i: nat)
    requires Pass(lib, path) && SetsOut(lib, eager, path[0]) && 0 < i < |path| - 1
    ensures Along(lib, eager, path[0], path[i])
  {
    PassStepOf(lib, path, i);
    if i == 1 {
      } else {
      PathAlong(lib, eager, path, i - 1);
      StepAlong(lib, eager, path[0], path[i - 1], path[i]);
    }
  }

  lemma {:induction false} PersistedRank(d: Desired, m: Record, w: World)
    ensures Rank(d, Persist(m), w) == Rank(d, m, w)
    ensures OnCourse(d, m, w) ==> OnCourse(d, Persist(m), w)
  {
    assert Persist(m).adapters.GetOr([]) == m.adapters.GetOr([]);
  }

  lemma {:induction false} PatchAccomplishes(eager: bool, s: State, s': State, r: nat)
    requires PatchStep(s, s') && Accomplished(eager, s.d, s.mem, s.w, r) && !s.stored.deleting && WellFormed(s.d)
    ensures Hopeful(s') && Rank(s'.d, s'.stored, s'.w) <= r
    ensures eager ==> Rank(s'.d, s'.stored, s'.w) < r || Rested(s'.d, s'.stored, s'.w)
  {
    PersistedRank(s.d, s.mem, s.w);
  }

  lemma {:induction false} PassOutcome(lib: Lib, eager: bool, path: seq<State>)
    requires Pass(lib, path) && SetsOut(lib, eager, path[0])
    ensures var start, end := path[0], path[|path| - 1];
            && Hopeful(end) && end.d == start.d && Rank(end.d, end.stored, end.w) <= Rank(start.d, start.stored, start.w)
            && (eager ==> Rank(end.d, end.stored, end.w) < Rank(start.d, start.stored, start.w) || Rested(end.d, end.stored, end.w))
  {
    var n := |path|;
    PassEndsAt(lib, path);
    PathAlong(lib, eager, path, n - 2);
    PatchAccomplishes(eager, path[n - 2], path[n - 1], Rank(path[0].d, path[0].stored, path[0].w));
  }

  /** A pass that has to wait, for the allocator or for the guest, loses nothing of what was reached. */
  lemma {:induction false} WaitingPassLosesNothing(lib: Lib, path: seq<State>)
    requires Pass(lib, path) && Hopeful(path[0]) && Patient(path[0])
    ensures var start, end := path[0], path[|path| - 1];
            Hopeful(end) && end.d == start.d && Rank(end.d, end.stored, end.w) <= Rank(start.d, start.stored, start.w)
  {
    PassOutcome(lib, false, path);
  }

  /** A pass that has nobody to wait for brings the machine closer to rest, or to it. */
  lemma {:induction false} PassProgresses(lib: Lib, path: seq<State>)
    requires Pass(lib, path) && Hopeful(path[0]) && Favourable(lib, path[0])
    ensures var start, end := path[0], path[|path| - 1];
            && Hopeful(end) && end.d == start.d
            && (Rank(end.d, end.stored, end.w) < Rank(start.d, start.stored, start.w) || Rested(end.d, end.stored, end.w))
  {
    PassOutcome(lib, true, path);
  }

  // Between two passes others answer claims and guests report; they leave the record, the claims and
  // the machine's VM otherwise alone.
  ghost predicate LeftAlone(s: State, s': State) {
    && s'.pc == Idle && s'.alive == s.alive && s'.d == s.d && s'.stored == s.stored && s'.w.claims == s.w.claims
    && (s.stored.vmID.Some? && s.stored.vmID.value in s.w.vms ==>
          && s.stored.vmID.value in s'.w.vms
          && var vm := s.w.vms[s.stored.vmID.value];
             s'.w.vms[s.stored.vmID.value] == vm.(guest := s'.w.vms[s.stored.vmID.value].guest))
  }

  lemma {:induction false} LeftAloneKeeps(s: State, s': State)
    requires Hopeful(s) && LeftAlone(s, s')
    ensures Hopeful(s') && Rank(s'.d, s'.stored, s'.w) == Rank(s.d, s.stored, s.w)
  {
    if s.stored.vmID.Some? {
      var id := s.stored.vmID.value;
      SameNics(s.d, s.stored, s.w.vms[id], s'.w.vms[id]);
    }
  }

  ghost predicate NoneEmpty(passes: seq<seq<State>>) {
    forall i :: 0 <= i < |passes| ==> passes[i] != []
  }

  // One pass after the other; any of them may have to wait.
  ghost predicate Campaign(lib: Lib, passes: seq<seq<State>>) {
    && NoneEmpty(passes)
    && (forall i :: 0 <= i < |passes| ==> Pass(lib, passes[i]) && Patient(passes[i][0]))
    && forall i: nat :: i + 1 < |passes| ==> HandsOver(passes, i)
  }

  // The pass after the i-th starts from what that left.
  ghost predicate HandsOver(passes: seq<seq<State>>, i: nat)
    requires NoneEmpty(passes) && i + 1 < |passes|
  {
    LeftAlone(passes[i][|passes[i]| - 1], passes[i + 1][0])
  }

  // One for a pass that has nobody to wait for.
  ghost function Worth(lib: Lib, path: seq<State>): nat
    requires |path| > 0
  {
    if Favourable(lib, path[0]) then 1 else 0
  }

  // How many of the first `n` had nobody to wait for.
  ghost function Favourables(lib: Lib, passes: seq<seq<State>>, n: nat): nat
    requires NoneEmpty(passes) && n <= |passes|
  {
    if n == 0 then 0 else Favourables(lib, passes, n - 1) + Worth(lib, passes[n - 1])
  }

  ghost predicate AtRestAfter(path: seq<State>)
    requires |path| > 0
  {
    var end := path[|path| - 1];
    Rested(end.d, end.stored, end.w)
  }

  // None of the first `n` passes ended with everything in place.
  ghost predicate Restless(passes: seq<seq<State>>, n: nat)
    requires NoneEmpty(passes) && n <= |passes|
  {
    forall j :: 0 <= j < n ==> !AtRestAfter(passes[j])
  }

  // From `start` to `end` nothing was lost, and the rank fell by `k` or more.
  ghost predicate Lowered(start: State, end: State, k: nat) {
    Hopeful(end) && end.d == start.d && Rank(end.d, end.stored, end.w) + k <= Rank(start.d, start.stored, start.w)
  }

  lemma {:induction false} LoweredOnce(lib: Lib, path: seq<State>)
    requires Pass(lib, path) && Hopeful(path[0]) && Patient(path[0]) && !AtRestAfter(path)
    ensures Lowered(path[0], path[|path| - 1], Worth(lib, path))
  {
    WaitingPassLosesNothing(lib, path);
    if Favourable(lib, path[0]) {
      PassProgresses(lib, path);
    }
  }

  lemma {:induction false} LoweredNext(lib: Lib, start: State, s: State, k: nat, path: seq<State>)
    requires Lowered(start, s, k)
    requires Pass(lib, path) && LeftAlone(s, path[0]) && Patient(path[0]) && !AtRestAfter(path)
    ensures Lowered(start, path[|path| - 1], k + Worth(lib, path))
  {
    LeftAloneKeeps(s, path[0]);
    LoweredOnce(lib, path);
  }

  lemma {:induction false} PassOf(lib: Lib, passes: seq<seq<State>>, i: nat)
    requires Campaign(lib, passes) && i < |passes|
    ensures Pass(lib, passes[i]) && Patient(passes[i][0])
    ensures i > 0 ==> LeftAlone(passes[i - 1][|passes[i - 1]| - 1], passes[i][0])
  {
    if i > 0 {
      assert HandsOver(passes, i - 1);
    }
  }

  ghost function End(passes: seq<seq<State>>, i: nat): State
    requires NoneEmpty(passes) && i < |passes|
  {
    passes[i][|passes[i]| - 1]
  }

  lemma {:induction false} LoweredTo(lib: Lib, passes: seq<seq<State>>, n: nat, start: State, k: nat)
    requires NoneEmpty(passes) && 0 < n < |passes| && k == Favourables(lib, passes, n)
    requires Lowered(start, End(passes, n), k + Worth(lib, passes[n]))
    ensures Lowered(start, End(passes, n), Favourables(lib, passes, n + 1))
  {
    assert Favourables(lib, passes, n + 1) == k + Worth(lib, passes[n]);
  }

  lemma {:induction false} RankFalls(lib: Lib, passes: seq<seq<State>>, n: nat)
    requires Campaign(lib, passes) && n < |passes| && Hopeful(passes[0][0]) && Restless(passes, n + 1)
    ensures Lowered(passes[0][0], End(passes, n), Favourables(lib, passes, n + 1))
  {
    if n == 0 {
      RankFallsFirst(lib, passes);
    } else {
      RankFalls(lib, passes, n - 1);
      RankFallsFurther(lib, passes, n, passes[0][0], Favourables(lib, passes, n));
    }
  }

  lemma {:induction false} RankFallsFurther(lib: Lib, passes: seq<seq<State>>, n: nat, start: State, k: nat)
    requires Campaign(lib, passes) && 0 < n < |passes| && !AtRestAfter(passes[n])
    requires Lowered(start, End(passes, n - 1), k) && k == Favourables(lib, passes, n)
    ensures Lowered(start, End(passes, n), Favourables(lib, passes, n + 1))
  {
    PassOf(lib, passes, n);
    LoweredNext(lib, start, End(passes, n - 1), k, passes[n]);
    LoweredTo(lib, passes, n, start, k);
  }

  lemma {:induction false} RankFallsFirst(lib: Lib, passes: seq<seq<State>>)
    requires Campaign(lib, passes) && passes != [] && Hopeful(passes[0][0]) && Restless(passes, 1)
    ensures Lowered(passes[0][0], End(passes, 0), Favourables(lib, passes, 1))
  {
    PassOf(lib, passes, 0);
    LoweredOnce(lib, passes[0]);
    assert Favourables(lib, passes, 1) == Favourables(lib, passes, 0) + Worth(lib, passes[0]);
  }

  lemma {:induction false} HopefulAfter(lib: Lib, passes: seq<seq<State>>, i: nat)
    requires Campaign(lib, passes) && i < |passes| && Hopeful(passes[0][0])
    ensures Hopeful(End(passes, i)) && End(passes, i).d == passes[0][0].d
  {
    PassOf(lib, passes, i);
    if i > 0 {
      HopefulAfter(lib, passes, i - 1);
      LeftAloneKeeps(End(passes, i - 1), passes[i][0]);
    }
    WaitingPassLosesNothing(lib, passes[i]);
  }

  lemma {:induction false} RankAtMost(d: Desired, m: Record, w: World)
    ensures Rank(d, m, w) <= MostPasses(d)
  {
    if m.vmID.Some? && m.vmID.value in w.vms {
      RankBelowMost(d, m, w);
    }
  }

  lemma {:induction false} RestlessAreFew(lib: Lib, passes: seq<seq<State>>, n: nat)
    requires Campaign(lib, passes) && 0 < n <= |passes| && Hopeful(passes[0][0]) && Restless(passes, n)
    ensures Favourables(lib, passes, n) <= MostPasses(passes[0][0].d)
  {
    RankFalls(lib, passes, n - 1);
    RankAtMost(passes[0][0].d, passes[0][0].stored, passes[0][0].w);
  }

  lemma {:induction false} FirstAtRest(passes: seq<seq<State>>, n: nat) returns (i: nat)
    requires NoneEmpty(passes) && n <= |passes|
    ensures i <= n && Restless(passes, i) && (i < n ==> AtRestAfter(passes[i]))
  {
    i := 0;
    while i < n && !AtRestAfter(passes[i])
      invariant i <= n && Restless(passes, i)
    {
      i := i + 1;
    }
  }

  /**
   Convergence: among any number of passes that have to wait, of more than the spec has distinct
   pool references and seven that do not, one ends with the machine ready and everything in place;
   the first to do so comes before the bound is exceeded.
   */
  lemma {:induction false} ConvergesInTime(lib: Lib, passes: seq<seq<State>>, n: nat) returns (i: nat)
    requires Campaign(lib, passes) && 0 < n <= |passes| && Hopeful(passes[0][0])
    requires Favourables(lib, passes, n) > MostPasses(passes[0][0].d)
    ensures i < n && Favourables(lib, passes, i) <= MostPasses(passes[0][0].d)
    ensures var end := passes[i][|passes[i]| - 1]; Hopeful(end) && Rested(end.d, end.stored, end.w) && end.d == passes[0][0].d
  {
    i := FirstAtRest(passes, n);
    if i > 0 {
      RestlessAreFew(lib, passes, i);
    }
    if i < n {
      HopefulAfter(lib, passes, i);
    }
  }

  lemma {:induction false} LaterAreFavourable(lib: Lib, passes: seq<seq<State>>, k: nat, n: nat)
    requires NoneEmpty(passes) && k <= n <= |passes|
    requires forall i :: k <= i < n ==> Favourable(lib, passes[i][0])
    ensures Favourables(lib, passes, n) >= n - k
  {
    if n > k {
      LaterAreFavourable(lib, passes, k, n - 1);
    }
  }

  /** If from some pass on the claims are answered and the guest reports, the machine comes to rest within the bound from there. */
  lemma {:induction false} ConvergesOnceAnswered(lib: Lib, passes: seq<seq<State>>, k: nat) returns (i: nat)
    requires Campaign(lib, passes) && passes != [] && Hopeful(passes[0][0])
    requires k + MostPasses(passes[0][0].d) < |passes| && forall j :: k <= j < |passes| ==> Favourable(lib, passes[j][0])
    ensures i <= k + MostPasses(passes[0][0].d)
    ensures var end := passes[i][|passes[i]| - 1]; Hopeful(end) && Rested(end.d, end.stored, end.w) && end.d == passes[0][0].d
  {
    var n := k + MostPasses(passes[0][0].d) + 1;
    LaterAreFavourable(lib, passes, k, n);
    i := ConvergesInTime(lib, passes, n);
  }

  /** A new record that is well-formed is where convergence starts. */
  lemma {:induction false} NewRecordHopeful(s: State)
    requires Init(s) && WellFormed(s.d) && (s.stored.vnc.Some? ==> NoEmptyText(s.stored.vnc.value))
    ensures Hopeful(s)
  {
  }

  /** And at rest, with an ethernet to have an address on, the machine is converged: later passes change nothing. */
  lemma {:induction false} RestIsConverged(s: State)
    requires Hopeful(s) && Rested(s.d, s.stored, s.w) && Ethernets(s.d) != []
    ensures Converged(s)
  {
  }
}
