/**
 One pass, as the controller runs it.  Every execution is a path of the transition system, so
 what is proved of all runs holds of it.
 */
module Reconciler {
  import opened Options
  import opened Api
  import opened Cloud
  import opened Lifecycle
  import opened Folders
  import opened Adapters
  import opened Claims
  import opened VncSettings
  import opened Bootstrap
  import opened Addresses
  import opened System
  import opened Frames

  // `s` is the state the objects are in.
  ghost predicate Mirrors(s: State, hv: Hypervisor, kube: Cluster, m: VDMachine)
    reads hv, kube, m
  {
    s.alive == kube.alive && s.stored == kube.stored && s.d == m.desired && s.mem == m.Rec() && s.w == Seen(hv, kube)
  }

  // A relation that holds of the steps of a pass.  The methods below are written for any such
  // relation, so that composing their steps does not need to know what a step is.
  ghost predicate Covers(lib: Lib, step: (State, State) -> bool) {
    forall s, s' :: PassStep(lib, s, s') ==> step(s, s')
  }

  // The steps of a pass under way.
  ghost predicate Under(step: (State, State) -> bool, path: seq<State>) {
    && |path| > 0 && path[0].pc == Idle
    && (forall i :: 0 < i < |path| ==> path[i].pc != Idle)
    && forall i :: 0 <= i < |path| - 1 ==> step(path[i], path[i + 1])
  }

  lemma {:induction false} Extended(lib: Lib, step: (State, State) -> bool, path: seq<State>, s: State)
    requires Covers(lib, step) && Under(step, path) && PassStep(lib, path[|path| - 1], s) && s.pc != Idle
    ensures Under(step, path + [s])
  {
    assert step(path[|path| - 1], s);
  }

  // A pass under way that ends with its patch is a pass.
  lemma {:induction false} Ended(lib: Lib, path: seq<State>, s: State)
    requires Under(PassRelation(lib), path) && |path| > 1 && PassStep(lib, path[|path| - 1], s) && s.pc == Idle
    ensures Pass(lib, path + [s])
  {
  }

  ghost function AfterStageStep(s: State, m: Record, w: World, out: Outcome): State {
    var born := if s.pc == Creating && out == Continue && m.vmID.Some? then {m.vmID.value} else s.born;
    s.(pc := if out == Continue then AfterStage(s.pc) else Finishing, mem := m, w := w, out := out, born := born,
       stale := s.stale + if s.pc == Creating && out == Continue && s.mem.bootstrapped then born else {})
  }

  predicate NeedsVM(pc: Pc) {
    pc in {AtHardware, AtAdapters, AtClaims, AtFolders, AtVnc, AtBootstrap, AtPower, AtAddresses}
  }

  lemma {:induction false} Stepped(lib: Lib, s: State, m: Record, w: World, out: Outcome)
    requires StageDone(lib, s.pc, s.d, s.mem, s.w, m, w, out)
    ensures StageStep(lib, s, AfterStageStep(s, m, w, out))
  {
    assert s.stale + {} == s.stale;
  }

  lemma {:induction false} ExtendedByStage(lib: Lib, step: (State, State) -> bool, path: seq<State>, m: Record, w: World, out: Outcome)
    requires Covers(lib, step) && Under(step, path)
    requires var s := path[|path| - 1];
             (NeedsVM(s.pc) || s.pc in {Creating, Deleting}) && StageDone(lib, s.pc, s.d, s.mem, s.w, m, w, out)
    ensures var s := path[|path| - 1];
            var s' := AfterStageStep(s, m, w, out);
            Under(step, path + [s']) && StageStep(lib, s, s')
  {
    var s := path[|path| - 1];
    Stepped(lib, s, m, w, out);
    Extended(lib, step, path, AfterStageStep(s, m, w, out));
  }

  method RunOne(lib: Lib, hv: Hypervisor, kube: Cluster, m: VDMachine, pc: Pc) returns (out: Outcome)
    requires NeedsVM(pc) ==> m.vmID.Some?
    requires NeedsVM(pc) || pc in {Creating, Deleting}
    modifies hv`vms, hv`log, kube`claims, kube`claimLog, m
    ensures StageDone(lib, pc, m.desired, old(m.Rec()), old(Seen(hv, kube)), m.Rec(), Seen(hv, kube), out)
  {
    match pc {
      case Creating => out := ReconcileCreateVM(hv, kube, m);
      case Deleting => out := ReconcileDelete(hv, kube, m);
      case AtHardware => out := ReconcileHardware(hv, kube, m.vmID.value, m);
      case AtAdapters => out := ReconcileNetworkAdapters(hv, kube, m.vmID.value, m);
      case AtClaims => out := ReconcileNetworkAddresses(hv, kube, m);
      case AtFolders => out := ReconcileSharedFolders(hv, kube, m.vmID.value, m);
      case AtVnc => out := ReconcileVnc(hv, kube, m.vmID.value, m);
      case AtBootstrap => out := ReconcileBootstrapData(lib, hv, kube, m.vmID.value, m);
      case AtPower => out := ReconcilePowerState(hv, kube, m.vmID.value, m);
      case AtAddresses => out := ReconcileAddresses(lib, hv, kube, m.vmID.value, m);
    }
  }

  lemma {:induction false} KeepsVmID(lib: Lib, pc: Pc, d: Desired, m: Record, w: World, m': Record, w': World, out: Outcome)
    requires StageDone(lib, pc, d, m, w, m', w', out) && pc != Creating
    ensures m'.vmID == m.vmID
  {
    match pc
    case AtAdapters => AdaptersFrame(d, m.vmID.value, m, w, m', w', out);
    case AtFolders => FoldersFrame(d, m.vmID.value, m, w, m', w', out);
    case AtVnc => VncFrame(d, m.vmID.value, m, w, m', w', out);
    case AtBootstrap => BootFrame(lib, d, m.vmID.value, m, w, m', w', out);
    case _ =>
  }

  /** Runs the stage `pc`, and lifts what it promises to a step of the system. */
  method RunStage(lib: Lib, hv: Hypervisor, kube: Cluster, m: VDMachine, pc: Pc, ghost step: (State, State) -> bool, ghost path: seq<State>)
    returns (out: Outcome, ghost longer: seq<State>)
    requires Covers(lib, step) && Under(step, path) && path[|path| - 1].pc == pc && Mirrors(path[|path| - 1], hv, kube, m)
    requires NeedsVM(pc) ==> m.vmID.Some?
    requires NeedsVM(pc) || pc in {Creating, Deleting}
    modifies hv`vms, hv`log, kube`claims, kube`claimLog, m
    ensures Under(step, longer) && path <= longer && |longer| == |path| + 1
    ensures StageStep(lib, path[|path| - 1], longer[|path|])
    ensures Mirrors(longer[|longer| - 1], hv, kube, m)
    ensures longer[|longer| - 1].pc == if out == Continue then AfterStage(pc) else Finishing
    ensures pc != Creating ==> m.vmID == old(m.vmID)
  {
    ghost var s := path[|path| - 1];
    out := RunOne(lib, hv, kube, m, pc);
    ghost var s' := AfterStageStep(s, m.Rec(), Seen(hv, kube), out);
    ExtendedByStage(lib, step, path, m.Rec(), Seen(hv, kube), out);
    longer := path + [s'];
    if pc != Creating {
      KeepsVmID(lib, pc, s.d, s.mem, s.w, m.Rec(), Seen(hv, kube), out);
    }
  }

  /** Lines 154-171: ask for the power state, note it, patch; forget a VM that is gone. */
  method Probe(lib: Lib, hv: Hypervisor, kube: Cluster, m: VDMachine, ghost step: (State, State) -> bool, ghost path: seq<State>)
    returns (go: bool, ghost longer: seq<State>)
    requires Covers(lib, step) && Under(step, path) && path[|path| - 1].pc == Probing && Mirrors(path[|path| - 1], hv, kube, m)
    modifies kube`stored, kube`alive, m`vmID, m`providerID, m`state
    ensures Under(step, longer) && path <= longer && |longer| == |path| + 1
    ensures ProbeStep(path[|path| - 1], longer[|path|])
    ensures Mirrors(longer[|longer| - 1], hv, kube, m)
    ensures longer[|longer| - 1].pc == if go then Routing else Finishing
  {
    ghost var s := path[|path| - 1];
    ghost var s': State;
    if m.vmID.None? {
      go, s' := true, s.(pc := Routing);
    } else {
      go, s' := ProbeVM(hv, kube, m, s);
    }
    Extended(lib, step, path, s');
    longer := path + [s'];
  }

  method ProbeVM(hv: Hypervisor, kube: Cluster, m: VDMachine, ghost s: State) returns (go: bool, ghost s': State)
    requires s.pc == Probing && Mirrors(s, hv, kube, m) && m.vmID.Some?
    modifies kube`stored, kube`alive, m`vmID, m`providerID, m`state
    ensures ProbeStep(s, s') && Mirrors(s', hv, kube, m) && s'.pc == if go then Routing else Finishing
  {
    var power := hv.GetPowerState(m.vmID.value);
    if power.Ok? {
      go, s' := NotePower(hv, kube, m, power.value, s);
    } else {
      go, s' := false, s.(pc := Finishing, out := Error);
      if power.NotFound? {
        m.providerID := None;
        m.vmID := None;
        s' := s.(pc := Finishing, mem := s.mem.(vmID := None, providerID := None));
      }
    }
  }

  method NotePower(hv: Hypervisor, kube: Cluster, m: VDMachine, power: Power, ghost s: State) returns (go: bool, ghost s': State)
    requires s.pc == Probing && Mirrors(s, hv, kube, m) && m.vmID.Some?
    requires m.vmID.value in hv.vms && power == hv.vms[m.vmID.value].power
    modifies kube`stored, kube`alive, m`state
    ensures ProbeStep(s, s') && Mirrors(s', hv, kube, m) && s'.pc == if go then Routing else Finishing
  {
    m.state := Some(power);
    ghost var r := s.mem.(state := Some(power));
    go := PatchAsSystem(kube, m.Rec(), s);
    if go {
      s' := WithPatch(s, r).(pc := Routing, mem := r);
    } else {
      s' := s.(pc := Finishing, mem := r, out := Error);
    }
  }

  // A patch in the system's terms.
  method PatchAsSystem(kube: Cluster, m: Record, ghost s: State) returns (ok: bool)
    requires s.stored == kube.stored && s.alive == kube.alive
    modifies kube`stored, kube`alive
    ensures ok ==> s.alive && kube.stored == Patched(s.stored, m) && kube.alive == Survives(kube.stored)
    ensures !ok ==> !(s.alive && kube.reliable) && kube.stored == s.stored && kube.alive == s.alive
  {
    ok := kube.Patch(m);
  }

  /** Lines 184-206: the finalizer, the upstream checks, and the choice between creation and the stages. */
  method Route(lib: Lib, hv: Hypervisor, kube: Cluster, m: VDMachine, ghost step: (State, State) -> bool, ghost path: seq<State>)
    returns (pc: Pc, ghost longer: seq<State>)
    requires Covers(lib, step) && Under(step, path) && Mirrors(path[|path| - 1], hv, kube, m)
    requires path[|path| - 1].pc == Routing && !m.deleting
    modifies m`finalizer
    ensures Under(step, longer) && path <= longer && |longer| == |path| + 1
    ensures longer[|path|].pc == pc && Mirrors(longer[|path|], hv, kube, m)
    ensures pc == if !kube.upstream then Finishing else if m.vmID.None? then Creating else AtHardware
  {
    m.finalizer := true;
    pc := if !kube.upstream then Finishing else if m.vmID.None? then Creating else AtHardware;
    ghost var s := path[|path| - 1].(mem := m.Rec(), pc := pc);
    Extended(lib, step, path, s);
    longer := path + [s];
  }

  /** Lines 181-249: the route, then creation or the stages in order. */
  method ReconcileNormal(lib: Lib, hv: Hypervisor, kube: Cluster, m: VDMachine, ghost step: (State, State) -> bool, ghost path: seq<State>)
    returns (ghost longer: seq<State>)
    requires Covers(lib, step) && Under(step, path) && Mirrors(path[|path| - 1], hv, kube, m)
    requires path[|path| - 1].pc == Routing && !m.deleting
    modifies hv`vms, hv`log, kube`claims, kube`claimLog, m
    ensures Under(step, longer) && path <= longer && |longer| > |path|
    ensures longer[|longer| - 1].pc == Finishing && Mirrors(longer[|longer| - 1], hv, kube, m)
  {
    var pc;
    pc, longer := Route(lib, hv, kube, m, step, path);
    if pc != Finishing {
      longer := Provision(lib, hv, kube, m, pc, step, longer);
    }
  }

  method Provision(lib: Lib, hv: Hypervisor, kube: Cluster, m: VDMachine, pc: Pc, ghost step: (State, State) -> bool, ghost path: seq<State>)
    returns (ghost longer: seq<State>)
    requires Covers(lib, step) && Under(step, path) && path[|path| - 1].pc == pc && Mirrors(path[|path| - 1], hv, kube, m)
    requires pc == Creating || (pc == AtHardware && m.vmID.Some?)
    modifies hv`vms, hv`log, kube`claims, kube`claimLog, m
    ensures Under(step, longer) && path <= longer && |longer| > |path|
    ensures longer[|longer| - 1].pc == Finishing && Mirrors(longer[|longer| - 1], hv, kube, m)
  {
    if pc == Creating {
      var out: Outcome;
      out, longer := RunStage(lib, hv, kube, m, Creating, step, path);
    } else {
      longer := FromHardware(lib, hv, kube, m, step, path);
    }
  }

  /** Hardware, then the rest. */
  method FromHardware(lib: Lib, hv: Hypervisor, kube: Cluster, m: VDMachine, ghost step: (State, State) -> bool, ghost path: seq<State>)
    returns (ghost longer: seq<State>)
    requires Covers(lib, step) && Under(step, path) && path[|path| - 1].pc == AtHardware && Mirrors(path[|path| - 1], hv, kube, m)
    requires m.vmID.Some?
    modifies hv`vms, hv`log, kube`claims, kube`claimLog, m
    ensures Under(step, longer) && path <= longer && |longer| > |path|
    ensures longer[|longer| - 1].pc == Finishing && Mirrors(longer[|longer| - 1], hv, kube, m)
  {
    var out: Outcome;
    out, longer := RunStage(lib, hv, kube, m, AtHardware, step, path);
    if out == Continue {
      longer := FromAdapters(lib, hv, kube, m, step, longer);
    }
  }

  /** Adapters, then the rest. */
  method FromAdapters(lib: Lib, hv: Hypervisor, kube: Cluster, m: VDMachine, ghost step: (State, State) -> bool, ghost path: seq<State>)
    returns (ghost longer: seq<State>)
    requires Covers(lib, step) && Under(step, path) && path[|path| - 1].pc == AtAdapters && Mirrors(path[|path| - 1], hv, kube, m)
    requires m.vmID.Some?
    modifies hv`vms, hv`log, kube`claims, kube`claimLog, m
    ensures Under(step, longer) && path <= longer && |longer| > |path|
    ensures longer[|longer| - 1].pc == Finishing && Mirrors(longer[|longer| - 1], hv, kube, m)
  {
    var out: Outcome;
    out, longer := RunStage(lib, hv, kube, m, AtAdapters, step, path);
    if out == Continue {
      longer := FromClaims(lib, hv, kube, m, step, longer);
    }
  }

  /** IPAM, then the rest. */
  method FromClaims(lib: Lib, hv: Hypervisor, kube: Cluster, m: VDMachine, ghost step: (State, State) -> bool, ghost path: seq<State>)
    returns (ghost longer: seq<State>)
    requires Covers(lib, step) && Under(step, path) && path[|path| - 1].pc == AtClaims && Mirrors(path[|path| - 1], hv, kube, m)
    requires m.vmID.Some?
    modifies hv`vms, hv`log, kube`claims, kube`claimLog, m
    ensures Under(step, longer) && path <= longer && |longer| > |path|
    ensures longer[|longer| - 1].pc == Finishing && Mirrors(longer[|longer| - 1], hv, kube, m)
  {
    var out: Outcome;
    out, longer := RunStage(lib, hv, kube, m, AtClaims, step, path);
    if out == Continue {
      longer := FromFolders(lib, hv, kube, m, step, longer);
    }
  }

  /** Folders, then the rest. */
  method FromFolders(lib: Lib, hv: Hypervisor, kube: Cluster, m: VDMachine, ghost step: (State, State) -> bool, ghost path: seq<State>)
    returns (ghost longer: seq<State>)
    requires Covers(lib, step) && Under(step, path) && path[|path| - 1].pc == AtFolders && Mirrors(path[|path| - 1], hv, kube, m)
    requires m.vmID.Some?
    modifies hv`vms, hv`log, kube`claims, kube`claimLog, m
    ensures Under(step, longer) && path <= longer && |longer| > |path|
    ensures longer[|longer| - 1].pc == Finishing && Mirrors(longer[|longer| - 1], hv, kube, m)
  {
    var out: Outcome;
    out, longer := RunStage(lib, hv, kube, m, AtFolders, step, path);
    if out == Continue {
      longer := FromVnc(lib, hv, kube, m, step, longer);
    }
  }

  /** VNC, then the rest. */
  method FromVnc(lib: Lib, hv: Hypervisor, kube: Cluster, m: VDMachine, ghost step: (State, State) -> bool, ghost path: seq<State>)
    returns (ghost longer: seq<State>)
    requires Covers(lib, step) && Under(step, path) && path[|path| - 1].pc == AtVnc && Mirrors(path[|path| - 1], hv, kube, m)
    requires m.vmID.Some?
    modifies hv`vms, hv`log, kube`claims, kube`claimLog, m
    ensures Under(step, longer) && path <= longer && |longer| > |path|
    ensures longer[|longer| - 1].pc == Finishing && Mirrors(longer[|longer| - 1], hv, kube, m)
  {
    var out: Outcome;
    out, longer := RunStage(lib, hv, kube, m, AtVnc, step, path);
    if out == Continue {
      longer := FromBootstrap(lib, hv, kube, m, step, longer);
    }
  }

  /** Bootstrap data, then the rest. */
  method FromBootstrap(lib: Lib, hv: Hypervisor, kube: Cluster, m: VDMachine, ghost step: (State, State) -> bool, ghost path: seq<State>)
    returns (ghost longer: seq<State>)
    requires Covers(lib, step) && Under(step, path) && path[|path| - 1].pc == AtBootstrap && Mirrors(path[|path| - 1], hv, kube, m)
    requires m.vmID.Some?
    modifies hv`vms, hv`log, kube`claims, kube`claimLog, m
    ensures Under(step, longer) && path <= longer && |longer| > |path|
    ensures longer[|longer| - 1].pc == Finishing && Mirrors(longer[|longer| - 1], hv, kube, m)
  {
    var out: Outcome;
    out, longer := RunStage(lib, hv, kube, m, AtBootstrap, step, path);
    if out == Continue {
      longer := FromPower(lib, hv, kube, m, step, longer);
    }
  }

  /** Power, then the rest. */
  method FromPower(lib: Lib, hv: Hypervisor, kube: Cluster, m: VDMachine, ghost step: (State, State) -> bool, ghost path: seq<State>)
    returns (ghost longer: seq<State>)
    requires Covers(lib, step) && Under(step, path) && path[|path| - 1].pc == AtPower && Mirrors(path[|path| - 1], hv, kube, m)
    requires m.vmID.Some?
    modifies hv`vms, hv`log, kube`claims, kube`claimLog, m
    ensures Under(step, longer) && path <= longer && |longer| > |path|
    ensures longer[|longer| - 1].pc == Finishing && Mirrors(longer[|longer| - 1], hv, kube, m)
  {
    var out: Outcome;
    out, longer := RunStage(lib, hv, kube, m, AtPower, step, path);
    if out == Continue {
      longer := FromAddresses(lib, hv, kube, m, step, longer);
    }
  }

  /** Addresses. */
  method FromAddresses(lib: Lib, hv: Hypervisor, kube: Cluster, m: VDMachine, ghost step: (State, State) -> bool, ghost path: seq<State>)
    returns (ghost longer: seq<State>)
    requires Covers(lib, step) && Under(step, path) && path[|path| - 1].pc == AtAddresses && Mirrors(path[|path| - 1], hv, kube, m)
    requires m.vmID.Some?
    modifies hv`vms, hv`log, kube`claims, kube`claimLog, m
    ensures Under(step, longer) && path <= longer && |longer| > |path|
    ensures longer[|longer| - 1].pc == Finishing && Mirrors(longer[|longer| - 1], hv, kube, m)
  {
    var out: Outcome;
    out, longer := RunStage(lib, hv, kube, m, AtAddresses, step, path);
  }

  /** From the probe to the point where the pass ends with its patch. */
  method ReconcileStored(lib: Lib, hv: Hypervisor, kube: Cluster, m: VDMachine, ghost step: (State, State) -> bool, ghost path: seq<State>)
    returns (ghost longer: seq<State>)
    requires Covers(lib, step) && Under(step, path) && path[|path| - 1].pc == Probing && Mirrors(path[|path| - 1], hv, kube, m)
    modifies hv`vms, hv`log, kube`claims, kube`claimLog, kube`stored, kube`alive, m
    ensures Under(step, longer) && path <= longer && |longer| > |path|
    ensures longer[|longer| - 1].pc == Finishing && Mirrors(longer[|longer| - 1], hv, kube, m)
  {
    var go: bool;
    go, longer := Probe(lib, hv, kube, m, step, path);
    if go {
      if m.deleting {
        longer := ReconcileDeletion(lib, hv, kube, m, step, longer);
      } else {
        longer := ReconcileNormal(lib, hv, kube, m, step, longer);
      }
    }
  }

  method ReconcileDeletion(lib: Lib, hv: Hypervisor, kube: Cluster, m: VDMachine, ghost step: (State, State) -> bool, ghost path: seq<State>)
    returns (ghost longer: seq<State>)
    requires Covers(lib, step) && Under(step, path) && Mirrors(path[|path| - 1], hv, kube, m)
    requires path[|path| - 1].pc == Routing && m.deleting
    modifies hv`vms, hv`log, kube`claims, kube`claimLog, m
    ensures Under(step, longer) && path <= longer && |longer| > |path|
    ensures longer[|longer| - 1].pc == Finishing && Mirrors(longer[|longer| - 1], hv, kube, m)
  {
    ghost var s := path[|path| - 1].(pc := Deleting);
    Extended(lib, step, path, s);
    var out: Outcome;
    out, longer := RunStage(lib, hv, kube, m, Deleting, step, path + [s]);
  }

  /** The deferred patch. */
  method Finish(kube: Cluster, m: VDMachine, ghost s: State, ghost hv: Hypervisor) returns (patched: bool, ghost end: State)
    requires s.pc == Finishing && Mirrors(s, hv, kube, m)
    modifies kube`stored, kube`alive
    ensures if patched then PatchStep(s, end) else Unpatched(s, end)
    ensures end.pc == Idle && end.alive == kube.alive && end.stored == kube.stored && end.w == Seen(hv, kube)
    ensures patched ==>
      kube.stored == s.mem.(deleting := old(kube.stored).deleting, adapters := if s.mem.adapters == Some([]) then None else s.mem.adapters)
  {
    patched := kube.Patch(m.Rec());
    end := if patched then WithPatch(s, s.mem).(pc := Idle, born := {})
           else s.(pc := Idle, lost := s.lost + s.born, born := {});
  }

  ghost function PassRelation(lib: Lib): (State, State) -> bool {
    (s, s') => PassStep(lib, s, s')
  }

  // The patch failed, which takes a record that is gone or an API that does not answer.
  ghost predicate Unpatched(s: State, end: State) {
    LoseStep(s, end) && !(s.alive && s.w.reliable)
  }

  // What became of a pass that started in `s0`: it went along `path` and then to `end`, by its
  // patch or by failing to patch; or it found that it was not its turn and did nothing.
  ghost predicate Ran(lib: Lib, s0: State, path: seq<State>, patched: bool, end: State) {
    && Under(PassRelation(lib), path) && path[0] == s0
    && if |path| == 1 then end == s0 && !patched
       else if patched then Pass(lib, path + [end])
       else Unpatched(path[|path| - 1], end)
  }

  lemma {:induction false} RanToEnd(lib: Lib, path: seq<State>, patched: bool, end: State)
    requires Under(PassRelation(lib), path) && |path| > 1
    requires if patched then PatchStep(path[|path| - 1], end) else Unpatched(path[|path| - 1], end)
    ensures Ran(lib, path[0], path, patched, end)
  {
    if patched {
      Ended(lib, path, end);
    }
  }

  /** A pass over the stored record. */
  method RunPass(lib: Lib, hv: Hypervisor, kube: Cluster, d: Desired, ghost step: (State, State) -> bool, ghost s0: State)
    returns (patched: bool, ghost path: seq<State>, ghost end: State)
    requires Covers(lib, step) && kube.alive
    requires s0.pc == Idle && s0.alive == kube.alive && s0.stored == kube.stored && s0.d == d && s0.w == Seen(hv, kube)
    modifies hv`vms, hv`log, kube`claims, kube`claimLog, kube`stored, kube`alive
    ensures Under(step, path) && path[0] == s0 && |path| > 1
    ensures if patched then PatchStep(path[|path| - 1], end) else Unpatched(path[|path| - 1], end)
    ensures end.pc == Idle && end.alive == kube.alive && end.stored == kube.stored && end.w == Seen(hv, kube)
  {
    var m := new VDMachine(d, kube.stored);
    ghost var s := s0.(pc := Probing, mem := s0.stored, out := Continue, born := {});
    Extended(lib, step, [s0], s);
    path := ReconcileStored(lib, hv, kube, m, step, [s0] + [s]);
    patched, end := Finish(kube, m, path[|path| - 1], hv);
  }

  /** The controller's entry point.  `turn` says that owner, cluster and pause let the pass go ahead (lines 117-137). */
  method Reconcile(lib: Lib, hv: Hypervisor, kube: Cluster, d: Desired, turn: bool, ghost s0: State)
    returns (patched: bool, ghost path: seq<State>, ghost end: State)
    requires s0.pc == Idle && s0.alive == kube.alive && s0.stored == kube.stored && s0.d == d && s0.w == Seen(hv, kube)
    modifies hv`vms, hv`log, kube`claims, kube`claimLog, kube`stored, kube`alive
    ensures Ran(lib, s0, path, patched, end) && (|path| == 1 <==> !(turn && s0.alive))
    ensures end.pc == Idle && end.alive == kube.alive && end.stored == kube.stored && end.w == Seen(hv, kube)
  {
    patched, path, end := false, [s0], s0;
    if kube.alive && turn {
      patched, path, end := RunPass(lib, hv, kube, d, PassRelation(lib), s0);
      RanToEnd(lib, path, patched, end);
    }
  }

  lemma {:induction false} RunContinued(lib: Lib, run: seq<State>, path: seq<State>)
    requires Run(lib, run) && path != [] && path[0] == run[|run| - 1]
    requires forall i :: 0 <= i < |path| - 1 ==> Next(lib, path[i], path[i + 1])
    ensures Run(lib, run + path[1..])
  {
    var all := run + path[1..];
    forall i: nat | i + 1 < |all|
      ensures StepAt(lib, all, i)
    {
      if i < |run| - 1 {
        assert StepAt(lib, run, i);
        assert all[i] == run[i] && all[i + 1] == run[i + 1];
      } else {
        var k := i - (|run| - 1);
        assert all[i] == path[k] && all[i + 1] == path[k + 1];
      }
    }
  }

  /** What `Reconcile` did continues the run it started from, so all that is proved of runs holds after it. */
  lemma {:induction false} PassContinuesRun(lib: Lib, run: seq<State>, path: seq<State>, patched: bool, end: State)
    requires Run(lib, run) && Ran(lib, run[|run| - 1], path, patched, end)
    ensures Run(lib, run + path[1..]) && (run + path[1..])[|run| + |path| - 2] == path[|path| - 1]
    ensures |path| > 1 ==> Run(lib, run + (path + [end])[1..])
  {
    forall i | 0 <= i < |path| - 1
      ensures Next(lib, path[i], path[i + 1])
    {
      assert PassRelation(lib)(path[i], path[i + 1]);
    }
    RunContinued(lib, run, path);
    if |path| > 1 {
      LastStep(lib, path, patched, end);
      RunContinued(lib, run, path + [end]);
    }
  }

  lemma {:induction false} LastStep(lib: Lib, path: seq<State>, patched: bool, end: State)
    requires |path| > 1 && Ran(lib, path[0], path, patched, end)
    ensures forall i :: 0 <= i < |path| ==> Next(lib, (path + [end])[i], (path + [end])[i + 1])
  {
    var all := path + [end];
    forall i | 0 <= i < |path|
      ensures Next(lib, all[i], all[i + 1])
    {
      if i < |path| - 1 {
        assert PassRelation(lib)(path[i], path[i + 1]);
      } else if patched {
        assert PassStepAt(lib, all, i);
      } else {
        assert LoseStep(path[|path| - 1], end);
      }
    }
  }
}
