/**
 A VM that vanishes costs the record its two ids and nothing else.  So its successor is taken for
 one that was bootstrapped: it is turned on without its bootstrap data.
 */
module StaleVMs {
  import opened Options
  import opened Api
  import opened Cloud
  import opened Lifecycle
  import opened Folders
  import opened Bootstrap
  import opened System
  import opened Frames
  import opened PowerGate
  import opened Quiescence
  import opened Histories

  // The record of a machine at rest, apart from its VM.
  ghost predicate Seasoned(d: Desired, m: Record, w: World) {
    && m.finalizer && !m.deleting && m.bootstrapped && Persist(m) == m
    && Sized(d, m) && AdaptersSettled(d, m) && ClaimsAtRest(d, w)
    && SameFolders(d.folders, m.sharedFolders) && VncAtRest(m)
  }

  ghost predicate Waiting(s: State) {
    s.pc == Idle && s.alive && s.w.upstream && s.born == {} && Seasoned(s.d, s.stored, s.w)
  }

  // The VM goes, and the next pass forgets it.
  lemma {:induction false} VMVanishes(lib: Lib, run: seq<State>) returns (run': seq<State>)
    requires Run(lib, run) && Waiting(Last(run)) && Last(run).stored.vmID.Some?
    ensures Run(lib, run') && Waiting(Last(run')) && Last(run').stored.vmID.None?
    ensures run <= run' && Last(run').w.log == Last(run).w.log && Last(run').w.vms.Keys <= Last(run).w.vms.Keys
  {
    var s := Last(run);
    var s1 := s.(w := s.w.(vms := s.w.vms - {s.stored.vmID.value}));
    var s2 := s1.(pc := Probing, mem := s1.stored, out := Continue);
    var s3 := s2.(pc := Finishing, mem := s2.mem.(vmID := None, providerID := None));
    assert OthersStep(s, s1) && BeginStep(s1, s2) && ProbeStep(s2, s3);
    RunGrows(lib, run, s1);
    RunGrows(lib, run + [s1], s2);
    run' := PassEnds(lib, run + [s1] + [s2], s3);
  }

  // The pass after it clones a new VM, with the hardware the record shows.
  lemma {:induction false} VMRecreated(lib: Lib, run: seq<State>, id: string) returns (run': seq<State>)
    requires Run(lib, run) && Waiting(Last(run)) && Last(run).stored.vmID.None?
    requires id !in Last(run).w.vms && id !in CreatedIds(Last(run).w.log)
    ensures Run(lib, run') && Waiting(Last(run')) && run <= run'
    ensures Last(run').stored.vmID == Some(id) && id in Last(run').stale
    ensures id in Last(run').w.vms && Last(run').w.vms[id].power == PoweredOff
  {
    var s := Last(run);
    var vm := VM(PoweredOff, s.stored.hardware.cpu, s.stored.hardware.memory, map[], map[], []);
    assert Occupied(vm.config) == {};
    run' := Clones(lib, run, id, vm);
    assert s.stored.(hardware := Hardware(vm.cpu, vm.memory)) == s.stored;
  }

  lemma {:induction false} TurnsOn(lib: Lib, s: State) returns (s': State)
    requires s.pc == AtPower && s.out == Continue && s.mem.vmID.Some? && s.mem.vmID.value in s.w.vms
    requires s.mem.state == Some(PoweredOff)
    ensures Next(lib, s, s') && s'.w.log == s.w.log + [TurnedOn(s.mem.vmID.value)] && s'.stale == s.stale
    ensures s' == s.(pc := AtAddresses, mem := s.mem.(state := Some(PoweredOn)), w := SetPower(s.w, s.mem.vmID.value, PoweredOn))
  {
    var id := s.mem.vmID.value;
    s' := s.(pc := AtAddresses, mem := s.mem.(state := Some(PoweredOn)), w := SetPower(s.w, id, PoweredOn));
    assert PowerStage(id, s.mem, s.w, s'.mem, s'.w, Continue);
    assert StageStep(lib, s, s');
  }

  // The pass after that finds the record in order and comes to power.
  lemma {:induction false} ComesToPower(lib: Lib, run: seq<State>) returns (run': seq<State>)
    requires Run(lib, run) && Waiting(Last(run)) && Last(run).stored.vmID.Some?
    requires Last(run).stored.vmID.value in Last(run).w.vms
    ensures Run(lib, run') && run <= run'
    ensures Last(run') == Started(Last(run)).(pc := AtPower)
  {
    var started := PassStarts(lib, run);
    run' := ComesTo(lib, started, AtPower);
  }

  /**
   Any run that brought a machine to rest goes on, if its VM is removed by somebody else, to one in
   which the new VM is turned on without ever having been given a bootstrap parameter.
   */
  lemma {:induction false} StaleVMTurnedOn(lib: Lib, run: seq<State>, id: string) returns (run': seq<State>)
    requires Run(lib, run) && Waiting(Last(run)) && Last(run).stored.vmID.Some?
    requires id !in Last(run).w.vms && id !in CreatedIds(Last(run).w.log)
    ensures Run(lib, run') && run <= run'
    ensures var log := Last(run').w.log;
            log != [] && log[|log| - 1] == TurnedOn(id) && !Booted(log[..|log| - 1], id)
  {
    var gone := VMVanishes(lib, run);
    var back := VMRecreated(lib, gone, id);
    var ready := ComesToPower(lib, back);
    var s := TurnsOn(lib, Last(ready));
    RunGrows(lib, ready, s);
    run' := ready + [s];
    PowerOnGated(lib, run', |run'| - 1, |s.w.log| - 1);
  }
}
