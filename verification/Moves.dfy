/**
 The steps of the system with what safety does not need left out: a calm stage is known only by
 its frame.  Every step is such a move, so what all moves keep holds on every run.
 */
module Moves {
  import opened Api
  import opened Cloud
  import opened Lifecycle
  import opened Folders
  import opened Adapters
  import opened Claims
  import opened VncSettings
  import opened VncRounds
  import opened Bootstrap
  import opened Addresses
  import opened System
  import opened Frames

  // The place of a calm stage or of the power stage in a pass; 0 where no VM is being set up.
  function Order(pc: Pc): nat {
    match pc
    case AtHardware => 1
    case AtAdapters => 2
    case AtClaims => 3
    case AtFolders => 4
    case AtVnc => 5
    case AtBootstrap => 6
    case AtPower => 7
    case AtAddresses => 8
    case _ => 0
  }

  predicate IsCalm(pc: Pc) {
    Order(pc) > 0 && pc != AtPower
  }

  // What the record shows once the stages before `pc` were content.
  ghost predicate Settled(d: Desired, m: Record, pc: Pc) {
    && (Order(pc) > 1 ==> Sized(d, m))
    && (Order(pc) > 2 ==> AdaptersSettled(d, m))
    && (Order(pc) > 4 ==> SameFolders(d.folders, m.sharedFolders))
    && (Order(pc) > 5 ==> m.vncStatus.Some?)
    && (Order(pc) > 6 ==> m.bootstrapped)
  }

  // A calm stage leaves the machine's identity, power and deletion alone.
  function SameIdentity(m: Record, m': Record): bool {
    m'.vmID == m.vmID && m'.providerID == m.providerID && m'.state == m.state
    && m'.finalizer == m.finalizer && m'.deleting == m.deleting
  }

  ghost predicate CalmStep(lib: Lib, s: State, s': State) {
    && IsCalm(s.pc) && s.mem.vmID.Some?
    && s' == s.(pc := if s'.out == Continue then AfterStage(s.pc) else Finishing, mem := s'.mem, w := s'.w, out := s'.out)
    && SameIdentity(s.mem, s'.mem)
    && Tended(s.w.(claims := s'.w.claims, claimLog := s'.w.claimLog), s'.w, s.mem.vmID.value)
    && (s.mem.bootstrapped ==> s'.mem.bootstrapped && NoGuestWrites(s.w, s'.w))
    && (s'.mem.bootstrapped && !s.mem.bootstrapped ==> Booted(s'.w.log, s.mem.vmID.value))
    && AddressesKept(lib, s, s')
    && ClaimsKept(s, s')
    && (if s.pc == AtVnc then OnlyGenerated(s.mem.vnc, s'.mem.vnc)
        else s'.mem.vnc == s.mem.vnc && s'.mem.vncStatus == s.mem.vncStatus)
    && VncWritesTold(s.w, s'.w, s'.mem.vnc)
    && (if s.pc == AtFolders then FoldersTold(s.d, s.mem.vmID.value, s.mem, s.w, s'.mem, s'.w)
        else s'.mem.sharedFolders == s.mem.sharedFolders && SameVMFolders(s.w, s'.w))
    && (Settled(s.d, s.mem, s.pc) ==> Settled(s.d, s'.mem, s'.pc))
  }

  // The readiness part of the record stays, or is filled in by the last stage.
  ghost predicate AddressesKept(lib: Lib, s: State, s': State)
    requires s.mem.vmID.Some?
  {
    || (s'.mem.addresses == s.mem.addresses && s'.mem.ready == s.mem.ready && s'.mem.provisioned == s.mem.provisioned)
    || (s.pc == AtAddresses && s.mem.addresses == [] && FoundAddresses(lib, s.d, s'.w, s.mem.vmID.value, s'.mem))
  }

  ghost predicate ClaimsKept(s: State, s': State) {
    || (s'.w.claims == s.w.claims && s'.w.claimLog == s.w.claimLog)
    || (s.pc == AtClaims && ClaimedInOrder(s.d, s.w, s'.w))
  }

  ghost predicate CreateStep(s: State, s': State) {
    && s.pc == Creating && CreateStage(s.d, s.mem, s.w, s'.mem, s'.w, s'.out)
    && s' == s.(pc := Finishing, mem := s'.mem, w := s'.w, out := s'.out,
                born := if s'.out == Continue then {s'.mem.vmID.value} else s.born,
                stale := s.stale + if s'.out == Continue && s.mem.bootstrapped then {s'.mem.vmID.value} else {})
  }

  ghost predicate DeleteStep(s: State, s': State) {
    && s.pc == Deleting && DeleteStage(s.mem, s.w, s'.mem, s'.w, s'.out)
    && s' == s.(pc := Finishing, mem := s'.mem, w := s'.w, out := s'.out)
  }

  // What deletion may change.
  ghost predicate Dismantled(s: State, s': State) {
    && s.pc == Deleting
    && s' == s.(pc := Finishing, mem := s'.mem, w := s'.w, out := s'.out)
    && s'.mem == s.mem.(state := s'.mem.state, finalizer := s'.mem.finalizer)
    && (s'.mem.finalizer == s.mem.finalizer || (!s'.mem.finalizer && (s.mem.vmID.Some? ==> s.mem.vmID.value !in s'.w.vms)))
    && s'.w == s.w.(vms := s'.w.vms, log := s'.w.log) && s'.w.vms.Keys <= s.w.vms.Keys
    && s.w.log <= s'.w.log && (forall i :: |s.w.log| <= i < |s'.w.log| ==> s'.w.log[i].TurnedOff? || s'.w.log[i].Deleted?)
  }

  lemma {:induction false} DeletionFrame(s: State, s': State)
    requires DeleteStep(s, s')
    ensures Dismantled(s, s')
  {
  }

  ghost predicate PowerStep(s: State, s': State) {
    && s.pc == AtPower && s.mem.vmID.Some? && PowerStage(s.mem.vmID.value, s.mem, s.w, s'.mem, s'.w, s'.out)
    && s' == s.(pc := if s'.out == Continue then AtAddresses else Finishing, mem := s'.mem, w := s'.w, out := s'.out)
  }

  // What turning the VM on may change.
  ghost predicate Switched(s: State, s': State) {
    && s.pc == AtPower && s.mem.vmID.Some?
    && s' == s.(pc := if s'.out == Continue then AtAddresses else Finishing, mem := s'.mem, w := s'.w, out := s'.out)
    && s'.mem == s.mem.(state := s'.mem.state, providerID := s'.mem.providerID)
    && s'.w == s.w.(vms := s'.w.vms, log := s'.w.log) && s'.w.vms.Keys == s.w.vms.Keys && s.w.log <= s'.w.log
  }

  lemma {:induction false} PowerFrame(s: State, s': State)
    requires PowerStep(s, s')
    ensures Switched(s, s')
  {
  }

  ghost predicate Move(lib: Lib, s: State, s': State) {
    || BeginStep(s, s') || ProbeStep(s, s') || RouteStep(s, s') || PatchStep(s, s') || LoseStep(s, s')
    || OthersStep(s, s')
    || CalmStep(lib, s, s') || CreateStep(s, s') || DeleteStep(s, s') || PowerStep(s, s')
  }

  /******* Every stage step is one of these *******/

  ghost predicate Advance(s: State, s': State) {
    s' == s.(pc := if s'.out == Continue then AfterStage(s.pc) else Finishing, mem := s'.mem, w := s'.w, out := s'.out)
  }

  lemma {:induction false} HardwareCalm(lib: Lib, s: State, s': State)
    requires s.pc == AtHardware && s.mem.vmID.Some? && Advance(s, s')
    requires HardwareStage(s.d, s.mem.vmID.value, s.mem, s.w, s'.mem, s'.w, s'.out)
    ensures CalmStep(lib, s, s')
  {
    HardwareFrame(s.d, s.mem.vmID.value, s.mem, s.w, s'.mem, s'.w, s'.out);
  }

  lemma {:induction false} AdaptersCalm(lib: Lib, s: State, s': State)
    requires s.pc == AtAdapters && s.mem.vmID.Some? && Advance(s, s')
    requires AdaptersStage(s.d, s.mem.vmID.value, s.mem, s.w, s'.mem, s'.w, s'.out)
    ensures CalmStep(lib, s, s')
  {
    AdaptersFrame(s.d, s.mem.vmID.value, s.mem, s.w, s'.mem, s'.w, s'.out);
  }

  lemma {:induction false} ClaimsFramed(lib: Lib, s: State, s': State)
    requires s.pc == AtClaims && s.mem.vmID.Some? && Advance(s, s')
    requires s'.mem == s.mem && s'.w == s.w.(claims := s'.w.claims, claimLog := s'.w.claimLog)
    requires ClaimsKept(s, s')
    ensures CalmStep(lib, s, s')
  {
  }

  lemma {:induction false} ClaimsCalm(lib: Lib, s: State, s': State)
    requires s.pc == AtClaims && s.mem.vmID.Some? && Advance(s, s')
    requires ClaimsStage(s.d, s.mem, s.w, s'.mem, s'.w, s'.out)
    ensures CalmStep(lib, s, s')
  {
    ClaimsFrame(s.d, s.mem, s.w, s'.mem, s'.w, s'.out);
    ClaimsFramed(lib, s, s');
  }

  lemma {:induction false} FoldersFramed(lib: Lib, s: State, s': State)
    requires s.pc == AtFolders && s.mem.vmID.Some? && Advance(s, s')
    requires Tended(s.w, s'.w, s.mem.vmID.value) && NoGuestWrites(s.w, s'.w)
    requires FoldersTold(s.d, s.mem.vmID.value, s.mem, s.w, s'.mem, s'.w) && VncWritesTold(s.w, s'.w, s.mem.vnc)
    requires s'.mem == s.mem.(sharedFolders := s'.mem.sharedFolders)
    requires s'.out == Continue ==> SameFolders(s.d.folders, s'.mem.sharedFolders)
    ensures CalmStep(lib, s, s')
  {
  }

  lemma {:induction false} FoldersCalm(lib: Lib, s: State, s': State)
    requires s.pc == AtFolders && s.mem.vmID.Some? && Advance(s, s')
    requires FoldersStage(s.d, s.mem.vmID.value, s.mem, s.w, s'.mem, s'.w, s'.out)
    ensures CalmStep(lib, s, s')
  {
    FoldersFrame(s.d, s.mem.vmID.value, s.mem, s.w, s'.mem, s'.w, s'.out);
    FoldersFramed(lib, s, s');
  }

  lemma {:induction false} VncFramed(lib: Lib, s: State, s': State)
    requires s.pc == AtVnc && s.mem.vmID.Some? && Advance(s, s')
    requires Tended(s.w, s'.w, s.mem.vmID.value) && NoGuestWrites(s.w, s'.w) && SameVMFolders(s.w, s'.w)
    requires VncWritesTold(s.w, s'.w, s'.mem.vnc)
    requires s'.mem == s.mem.(vnc := s'.mem.vnc, vncStatus := s'.mem.vncStatus) && OnlyGenerated(s.mem.vnc, s'.mem.vnc)
    requires s'.out == Continue ==> s'.mem.vncStatus.Some?
    ensures CalmStep(lib, s, s')
  {
  }

  lemma {:induction false} VncCalm(lib: Lib, s: State, s': State)
    requires s.pc == AtVnc && s.mem.vmID.Some? && Advance(s, s')
    requires VncStage(s.d, s.mem.vmID.value, s.mem, s.w, s'.mem, s'.w, s'.out)
    ensures CalmStep(lib, s, s')
  {
    VncFrame(s.d, s.mem.vmID.value, s.mem, s.w, s'.mem, s'.w, s'.out);
    VncFramed(lib, s, s');
  }

  lemma {:induction false} BootFramed(lib: Lib, s: State, s': State)
    requires s.pc == AtBootstrap && s.mem.vmID.Some? && Advance(s, s')
    requires Tended(s.w, s'.w, s.mem.vmID.value) && SameVMFolders(s.w, s'.w) && (s.mem.bootstrapped ==> s'.w == s.w)
    requires VncWritesTold(s.w, s'.w, s.mem.vnc)
    requires s'.mem == s.mem.(bootstrapped := s.mem.bootstrapped || s'.out == Continue)
    requires s'.mem.bootstrapped && !s.mem.bootstrapped ==> Booted(s'.w.log, s.mem.vmID.value)
    ensures CalmStep(lib, s, s')
  {
  }

  lemma {:induction false} BootCalm(lib: Lib, s: State, s': State)
    requires s.pc == AtBootstrap && s.mem.vmID.Some? && Advance(s, s')
    requires BootstrapStage(lib, s.d, s.mem.vmID.value, s.mem, s.w, s'.mem, s'.w, s'.out)
    ensures CalmStep(lib, s, s')
  {
    BootFrame(lib, s.d, s.mem.vmID.value, s.mem, s.w, s'.mem, s'.w, s'.out);
    if !s.mem.bootstrapped && s'.out == Continue {
      BootWrites(lib, s.d, s.mem.vmID.value, s.mem, s.w, s'.mem, s'.w, s'.out);
    }
    BootFramed(lib, s, s');
  }

  lemma {:induction false} AddressesCalm(lib: Lib, s: State, s': State)
    requires s.pc == AtAddresses && s.mem.vmID.Some? && Advance(s, s')
    requires AddressesStage(lib, s.d, s.mem.vmID.value, s.mem, s.w, s'.mem, s'.w, s'.out)
    ensures CalmStep(lib, s, s')
  {
    AddressesFrame(lib, s.d, s.mem.vmID.value, s.mem, s.w, s'.mem, s'.w, s'.out);
  }

  lemma {:induction false} StageMoves(lib: Lib, s: State, s': State)
    requires StageStep(lib, s, s')
    ensures Move(lib, s, s')
  {
    match s.pc
    case AtHardware => HardwareCalm(lib, s, s');
    case AtAdapters => AdaptersCalm(lib, s, s');
    case AtClaims => ClaimsCalm(lib, s, s');
    case AtFolders => FoldersCalm(lib, s, s');
    case AtVnc => VncCalm(lib, s, s');
    case AtBootstrap => BootCalm(lib, s, s');
    case AtAddresses => AddressesCalm(lib, s, s');
    case Creating => assert CreateStep(s, s');
    case Deleting => assert DeleteStep(s, s');
    case AtPower => assert PowerStep(s, s');
    case _ =>
  }

  /** Every step of the system is a move. */
  lemma {:induction false} NextMoves(lib: Lib, s: State, s': State)
    requires Next(lib, s, s')
    ensures Move(lib, s, s')
  {
    if StageStep(lib, s, s') {
      StageMoves(lib, s, s');
    }
  }

  // A run told by its moves.
  ghost predicate MoveAt(lib: Lib, run: seq<State>, i: nat)
    requires i + 1 < |run|
  {
    Move(lib, run[i], run[i + 1])
  }

  ghost predicate Moving(lib: Lib, run: seq<State>) {
    |run| > 0 && Init(run[0]) && forall i: nat :: i + 1 < |run| ==> MoveAt(lib, run, i)
  }

  lemma {:induction false} RunMoves(lib: Lib, run: seq<State>)
    requires Run(lib, run)
    ensures Moving(lib, run)
  {
    forall i: nat | i + 1 < |run|
      ensures MoveAt(lib, run, i)
    {
      assert StepAt(lib, run, i);
      NextMoves(lib, run[i], run[i + 1]);
    }
  }

  lemma {:induction false} MoveOf(lib: Lib, run: seq<State>, i: nat)
    requires Moving(lib, run) && 0 < i < |run|
    ensures Move(lib, run[i - 1], run[i])
  {
    assert MoveAt(lib, run, i - 1);
  }
}
