/**
 The controller, its record and the outside world as a transition system.  A pass is a sequence
 of steps, one a stage; others may act between any two of them, and the controller may stop
 anywhere without patching.
 */
module System {
  import opened Options
  import opened Api
  import opened Cloud
  import opened Lifecycle
  import opened Folders
  import opened Adapters
  import opened Claims
  import opened VncSettings
  import opened Bootstrap
  import opened Addresses

  datatype Pc =
    | Idle | Probing | Routing | Creating
    | AtHardware | AtAdapters | AtClaims | AtFolders | AtVnc | AtBootstrap | AtPower | AtAddresses
    | Deleting | Finishing

  // `stored` is the record in the API server, gone when not `alive`; `mem` the copy a pass works on.
  // The rest is history: the VM created by the pass under way, the VMs created by a pass whose
  // patch never came, and those created for a record that already said it was bootstrapped.
  datatype State = State(
    pc: Pc,
    alive: bool,
    stored: Record,
    d: Desired,
    mem: Record,
    w: World,
    out: Outcome,
    born: set<string>,
    lost: set<string>,
    stale: set<string>)

  function AfterStage(pc: Pc): Pc {
    match pc
    case AtHardware => AtAdapters
    case AtAdapters => AtClaims
    case AtClaims => AtFolders
    case AtFolders => AtVnc
    case AtVnc => AtBootstrap
    case AtBootstrap => AtPower
    case AtPower => AtAddresses
    case _ => Finishing
  }

  ghost predicate StageDone(lib: Lib, pc: Pc, d: Desired, m: Record, w: World, m': Record, w': World, out: Outcome) {
    match pc
    case Creating => CreateStage(d, m, w, m', w', out)
    case Deleting => DeleteStage(m, w, m', w', out)
    case AtHardware => m.vmID.Some? && HardwareStage(d, m.vmID.value, m, w, m', w', out)
    case AtAdapters => m.vmID.Some? && AdaptersStage(d, m.vmID.value, m, w, m', w', out)
    case AtClaims => m.vmID.Some? && ClaimsStage(d, m, w, m', w', out)
    case AtFolders => m.vmID.Some? && FoldersStage(d, m.vmID.value, m, w, m', w', out)
    case AtVnc => m.vmID.Some? && VncStage(d, m.vmID.value, m, w, m', w', out)
    case AtBootstrap => m.vmID.Some? && BootstrapStage(lib, d, m.vmID.value, m, w, m', w', out)
    case AtPower => m.vmID.Some? && PowerStage(m.vmID.value, m, w, m', w', out)
    case AtAddresses => m.vmID.Some? && AddressesStage(lib, d, m.vmID.value, m, w, m', w', out)
    case _ => false
  }

  // Creation and deletion end the pass; the other stages hand over when they are content.
  ghost predicate StageStep(lib: Lib, s: State, s': State) {
    && StageDone(lib, s.pc, s.d, s.mem, s.w, s'.mem, s'.w, s'.out)
    && s' == s.(pc := if s'.out == Continue then AfterStage(s.pc) else Finishing,
                mem := s'.mem, w := s'.w, out := s'.out, born := s'.born, stale := s'.stale)
    && if s.pc == Creating && s'.out == Continue then
         s'.born == {s'.mem.vmID.value} && s'.stale == s.stale + if s.mem.bootstrapped then s'.born else {}
       else
         s'.born == s.born && s'.stale == s.stale
  }

  ghost predicate BeginStep(s: State, s': State) {
    s.pc == Idle && s.alive && s' == s.(pc := Probing, mem := s.stored, out := Continue, born := {})
  }

  // What the API server keeps of a patch: the deletion mark is its own.
  function Patched(stored: Record, m: Record): Record {
    Persist(m).(deleting := stored.deleting)
  }

  function Survives(m: Record): bool {
    !(m.deleting && !m.finalizer)
  }

  function WithPatch(s: State, m: Record): State {
    s.(stored := Patched(s.stored, m), alive := Survives(Patched(s.stored, m)))
  }

  ghost predicate ProbeStep(s: State, s': State) {
    && s.pc == Probing
    && if s.mem.vmID.None? then s' == s.(pc := Routing)
       else
         var id := s.mem.vmID.value;
         || (id !in s.w.vms && s' == s.(pc := Finishing, mem := s.mem.(vmID := None, providerID := None)))
         || (!s.w.reliable && s' == s.(pc := Finishing, out := Error))
         || (id in s.w.vms &&
             var m := s.mem.(state := Some(s.w.vms[id].power));
             || (s.alive && s' == WithPatch(s, m).(pc := Routing, mem := m))
             || (!(s.alive && s.w.reliable) && s' == s.(pc := Finishing, mem := m, out := Error)))
  }

  ghost predicate RouteStep(s: State, s': State) {
    && s.pc == Routing
    && if s.mem.deleting then s' == s.(pc := Deleting)
       else
         s' == s.(mem := s.mem.(finalizer := true),
                  pc := if !s.w.upstream then Finishing else if s.mem.vmID.None? then Creating else AtHardware)
  }

  ghost predicate PatchStep(s: State, s': State) {
    s.pc == Finishing && s.alive && s' == WithPatch(s, s.mem).(pc := Idle, born := {})
  }

  // Ends a pass without a patch: it failed, or the controller went away.
  ghost predicate LoseStep(s: State, s': State) {
    s.pc != Idle && s' == s.(pc := Idle, lost := s.lost + s.born, born := {})
  }

  ghost predicate PassStep(lib: Lib, s: State, s': State) {
    BeginStep(s, s') || ProbeStep(s, s') || RouteStep(s, s') || StageStep(lib, s, s') || PatchStep(s, s')
  }

  // Others: VMs come, go and change, claims are answered, calls start or stop failing; the user marks
  // the record deleted at any time, and edits the spec between passes.  Nobody reuses a VM id.
  ghost predicate OthersStep(s: State, s': State) {
    && s' == s.(w := s'.w, stored := s'.stored, alive := s'.alive, d := s'.d)
    && s'.w.log == s.w.log && s'.w.claimLog == s.w.claimLog
    && (forall id :: id in s'.w.vms && id !in s.w.vms ==> id !in CreatedIds(s.w.log))
    && s'.stored == s.stored.(deleting := s'.stored.deleting, vnc := s'.stored.vnc)
    && (s.stored.deleting ==> s'.stored.deleting)
    && (s.pc != Idle ==> s'.d == s.d && s'.stored.vnc == s.stored.vnc)
    && s'.alive == (s.alive && Survives(s'.stored))
  }

  ghost predicate Next(lib: Lib, s: State, s': State) {
    PassStep(lib, s, s') || LoseStep(s, s') || OthersStep(s, s')
  }

  // A new record: nothing was created for it yet.
  ghost predicate Init(s: State) {
    && s.pc == Idle && s.alive && CreatedIds(s.w.log) == {}
    && s.stored == Record(false, false, None, None, s.stored.vnc, None, Hardware(0, 0), None, [], None, [], false, false, false)
    && s.w.log == [] && s.w.claimLog == []
    && s.born == {} && s.lost == {} && s.stale == {}
  }

  // The i-th step of a run.
  ghost predicate StepAt(lib: Lib, run: seq<State>, i: nat)
    requires i + 1 < |run|
  {
    Next(lib, run[i], run[i + 1])
  }

  ghost predicate Run(lib: Lib, run: seq<State>) {
    |run| > 0 && Init(run[0]) && forall i: nat :: i + 1 < |run| ==> StepAt(lib, run, i)
  }

  // A whole pass, undisturbed: from rest to rest, patch included.
  ghost predicate Pass(lib: Lib, path: seq<State>) {
    && |path| > 1 && path[0].pc == Idle && path[|path| - 1].pc == Idle
    && (forall i :: 0 < i < |path| - 1 ==> path[i].pc != Idle)
    && forall i: nat :: i + 1 < |path| ==> PassStepAt(lib, path, i)
  }

  ghost predicate PassStepAt(lib: Lib, path: seq<State>, i: nat)
    requires i + 1 < |path|
  {
    PassStep(lib, path[i], path[i + 1])
  }

  lemma {:induction false} StepOf(lib: Lib, run: seq<State>, i: nat)
    requires Run(lib, run) && 0 < i < |run|
    ensures Next(lib, run[i - 1], run[i])
  {
    assert StepAt(lib, run, i - 1);
  }

  lemma {:induction false} PassStepOf(lib: Lib, path: seq<State>, i: nat)
    requires Pass(lib, path) && 0 < i < |path|
    ensures PassStep(lib, path[i - 1], path[i])
  {
    assert PassStepAt(lib, path, i - 1);
  }

  // A pass begins, does something, and ends with its patch.
  lemma {:induction false} PassEndsAt(lib: Lib, path: seq<State>)
    requires Pass(lib, path)
    ensures |path| > 2 && BeginStep(path[0], path[1]) && PatchStep(path[|path| - 2], path[|path| - 1])
  {
    PassStepOf(lib, path, 1);
    PassStepOf(lib, path, |path| - 1);
  }
}
