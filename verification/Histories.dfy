/** Building runs: a run that comes to some state goes on through passes that behave as one likes. */
module Histories {
  import opened Options
  import opened Api
  import opened Cloud
  import opened Lifecycle
  import opened Folders
  import opened Claims
  import opened Bootstrap
  import opened System
  import opened Frames
  import opened Moves
  import opened Quiescence

  function Last(run: seq<State>): State
    requires |run| > 0
  {
    run[|run| - 1]
  }

  lemma {:induction false} RunGrows(lib: Lib, run: seq<State>, s: State)
    requires Run(lib, run) && Next(lib, Last(run), s)
    ensures Run(lib, run + [s]) && Last(run + [s]) == s
  {
    forall i: nat | i + 1 < |run + [s]|
      ensures StepAt(lib, run + [s], i)
    {
      if i + 1 < |run| {
        assert StepAt(lib, run, i);
      }
    }
  }

  /******* Stages with nothing to do *******/

  ghost predicate Content(d: Desired, m: Record, w: World, pc: Pc) {
    match pc
    case AtHardware => Sized(d, m)
    case AtAdapters => AdaptersSettled(d, m)
    case AtClaims => ClaimsAtRest(d, w)
    case AtFolders => SameFolders(d.folders, m.sharedFolders)
    case AtVnc => VncAtRest(m)
    case AtBootstrap => m.bootstrapped
    case _ => false
  }

  lemma {:induction false} QuietStage(lib: Lib, s: State)
    requires s.out == Continue && s.mem.vmID.Some? && Content(s.d, s.mem, s.w, s.pc)
    ensures Next(lib, s, s.(pc := AfterStage(s.pc)))
  {
    if s.pc == AtClaims {
      QuietClaims(s.d, s.mem, s.w);
    }
    assert StageDone(lib, s.pc, s.d, s.mem, s.w, s.mem, s.w, Continue);
  }

  lemma {:induction false} QuietClaims(d: Desired, m: Record, w: World)
    requires ClaimsAtRest(d, w)
    ensures ClaimsStage(d, m, w, m, w, Continue)
  {
    var es := Ethernets(d);
    NothingToClaim(w.claims, d.name, es);
    assert w.claimLog + [] == w.claimLog;
    forall j | 0 <= j < |es|
      ensures !Unclaimable(EnsureClaims(w.claims, d.name, es[..j]), d.name, es[j])
    {
      NothingToClaim(w.claims, d.name, es[..j]);
    }
    AllAnswered(w.addresses, d.name, es);
  }

  lemma {:induction false} AllAnswered(addresses: map<string, IPAddress>, machine: string, es: seq<EthernetSpec>)
    requires forall k :: 0 <= k < |es| ==> Resolved(addresses, machine, es[k])
    ensures FirstUnresolved(addresses, machine, es) == |es|
  {
  }

  lemma {:induction false} OneStageOn(lib: Lib, run: seq<State>) returns (run': seq<State>)
    requires Run(lib, run) && Last(run).out == Continue && Last(run).mem.vmID.Some?
    requires Content(Last(run).d, Last(run).mem, Last(run).w, Last(run).pc)
    ensures Run(lib, run') && run <= run' && Last(run') == Last(run).(pc := AfterStage(Last(run).pc))
  {
    var s := Last(run);
    QuietStage(lib, s);
    RunGrows(lib, run, s.(pc := AfterStage(s.pc)));
    run' := run + [s.(pc := AfterStage(s.pc))];
  }

  // From one stage to a later one through stages with nothing to do.
  lemma {:induction false} ComesTo(lib: Lib, run: seq<State>, goal: Pc) returns (run': seq<State>)
    requires Run(lib, run) && 0 < Order(Last(run).pc) <= Order(goal) <= 7 && Last(run).out == Continue && Last(run).mem.vmID.Some?
    requires var s := Last(run);
             forall pc :: Order(s.pc) <= Order(pc) < Order(goal) && Order(pc) > 0 ==> Content(s.d, s.mem, s.w, pc)
    ensures Run(lib, run') && run <= run' && Last(run') == Last(run).(pc := goal)
    decreases 7 - Order(Last(run).pc)
  {
    var s := Last(run);
    if Order(s.pc) == Order(goal) {
      assert s.pc == goal;
      run' := run;
    } else {
      run' := OneStageOn(lib, run);
      run' := ComesTo(lib, run', goal);
    }
  }

  /******* The beginning and the end of a pass *******/

  predicate Restful(s: State) {
    s.pc == Idle && s.alive && !s.stored.deleting && s.w.upstream
  }

  // The state in which the pass that now begins comes to the hardware of its VM.
  function Started(s: State): State
    requires s.stored.vmID.Some? && s.stored.vmID.value in s.w.vms
  {
    var m := s.stored.(state := Some(s.w.vms[s.stored.vmID.value].power));
    s.(pc := AtHardware, stored := Patched(s.stored, m), mem := m.(finalizer := true), out := Continue, born := {})
  }

  lemma {:induction false} PassStarts(lib: Lib, run: seq<State>) returns (run': seq<State>)
    requires Run(lib, run) && Restful(Last(run)) && Last(run).stored.vmID.Some? && Last(run).stored.vmID.value in Last(run).w.vms
    ensures Run(lib, run') && run <= run' && Last(run') == Started(Last(run))
  {
    var s := Last(run);
    var m := s.stored.(state := Some(s.w.vms[s.stored.vmID.value].power));
    var s1 := s.(pc := Probing, mem := s.stored, out := Continue, born := {});
    var s2 := WithPatch(s1, m).(pc := Routing, mem := m);
    assert BeginStep(s, s1) && ProbeStep(s1, s2) && RouteStep(s2, Started(s));
    RunGrows(lib, run, s1);
    RunGrows(lib, run + [s1], s2);
    RunGrows(lib, run + [s1] + [s2], Started(s));
    run' := run + [s1] + [s2] + [Started(s)];
  }

  // The state in which the pass of a machine without a VM comes to create one.
  function StartedNew(s: State): State {
    s.(pc := Creating, mem := s.stored.(finalizer := true), out := Continue, born := {})
  }

  lemma {:induction false} FirstStarts(lib: Lib, run: seq<State>) returns (run': seq<State>)
    requires Run(lib, run) && Restful(Last(run)) && Last(run).stored.vmID.None?
    ensures Run(lib, run') && run <= run' && Last(run') == StartedNew(Last(run))
  {
    var s := Last(run);
    var s1 := s.(pc := Probing, mem := s.stored, out := Continue, born := {});
    var s2 := s1.(pc := Routing);
    assert BeginStep(s, s1) && ProbeStep(s1, s2) && RouteStep(s2, StartedNew(s));
    RunGrows(lib, run, s1);
    RunGrows(lib, run + [s1], s2);
    RunGrows(lib, run + [s1] + [s2], StartedNew(s));
    run' := run + [s1] + [s2] + [StartedNew(s)];
  }

  function Patch(s: State): State {
    WithPatch(s, s.mem).(pc := Idle, born := {})
  }

  // A last stage, and the patch.
  lemma {:induction false} PassEnds(lib: Lib, run: seq<State>, s: State) returns (run': seq<State>)
    requires Run(lib, run) && Next(lib, Last(run), s) && s.pc == Finishing && s.alive
    ensures Run(lib, run') && run <= run' && Last(run') == Patch(s)
  {
    assert PatchStep(s, Patch(s));
    RunGrows(lib, run, s);
    RunGrows(lib, run + [s], Patch(s));
    run' := run + [s] + [Patch(s)];
  }

  /******* The pass that clones *******/

  // VM `id` is cloned as `vm`.
  function Born(s: State, id: string, vm: VM): State {
    s.(pc := Finishing, born := {id}, stale := s.stale + if s.mem.bootstrapped then {id} else {},
       w := s.w.(vms := s.w.vms[id := vm], log := s.w.log + [Created(id, s.d.name, s.d.templateID)]),
       mem := s.mem.(vmID := Some(id), providerID := Some(ProviderID(id)), hardware := Hardware(vm.cpu, vm.memory)))
  }

  lemma {:induction false} CloneStep(lib: Lib, s: State, id: string, vm: VM)
    requires s.pc == Creating && s.out == Continue && id !in s.w.vms && id !in CreatedIds(s.w.log)
    requires vm.power == PoweredOff && Contiguous(vm.config)
    ensures StageStep(lib, s, Born(s, id, vm))
  {
    var s' := Born(s, id, vm);
    assert s'.w.vms == s.w.vms[id := s'.w.vms[id]];
    assert CreateStage(s.d, s.mem, s.w, s'.mem, s'.w, Continue);
  }

  // The pass of a machine without a VM clones `vm`.
  lemma {:induction false} Clones(lib: Lib, run: seq<State>, id: string, vm: VM) returns (run': seq<State>)
    requires Run(lib, run) && Restful(Last(run)) && Last(run).stored.vmID.None?
    requires id !in Last(run).w.vms && id !in CreatedIds(Last(run).w.log) && vm.power == PoweredOff && Contiguous(vm.config)
    ensures Run(lib, run') && run <= run' && Last(run') == Patch(Born(StartedNew(Last(run)), id, vm))
  {
    var creating := FirstStarts(lib, run);
    CloneStep(lib, Last(creating), id, vm);
    run' := PassEnds(lib, creating, Born(Last(creating), id, vm));
  }

  /******* Writes that get through *******/

  lemma {:induction false} WritesOn(w: World, w1: World, id: string, params: map<Key, string>, rest: set<Key>) returns (w': World)
    requires id in w.vms && WroteSome(w, w1, id, params) && rest <= params.Keys
    requires KeysSince(w1.log, |w.log|) == params.Keys - rest
    ensures WroteAll(w, w', id, params)
    decreases |rest|
  {
    w' := w1;
    if key :| key in rest {
      var w2 := w1.(vms := WithConfig(w1.vms, id, map[key := params[key]]), log := w1.log + [Configured(id, key, params[key])]);
      WroteOneMore(w, w1, w2, id, params, key);
      w' := WritesOn(w, w2, id, params, rest - {key});
    }
  }

  // A world in which all these parameters were written.
  lemma {:induction false} WritesThrough(w: World, id: string, params: map<Key, string>) returns (w': World)
    requires id in w.vms
    ensures WroteAll(w, w', id, params)
    ensures id in w'.vms && w'.vms[id] == w.vms[id].(config := w.vms[id].config + params) && w'.vms.Keys == w.vms.Keys
    ensures w' == w.(vms := w'.vms, log := w'.log) && w.log <= w'.log
  {
    WroteNothing(w, id, params);
    w' := WritesOn(w, w, id, params, params.Keys);
    assert Only(params, params.Keys) == params;
  }
}
