/** Which VMs a run leaves behind. */
module Orphans {
  import opened Options
  import opened Api
  import opened Cloud
  import opened Lifecycle
  import opened Bootstrap
  import opened System
  import opened Moves

  // A VM cloned for this machine that still exists.
  predicate Alive(s: State, id: string) {
    id in CreatedIds(s.w.log) && id in s.w.vms
  }

  // The record, and the pass under way if there is one, know the VM and hold it with the finalizer.
  predicate Kept(s: State, id: string) {
    && s.alive && s.stored.vmID == Some(id) && s.stored.finalizer
    && (s.pc != Idle ==> s.mem.vmID == Some(id) && s.mem.finalizer)
  }

  // The pass under way has just created the VM, and will say so in its patch.
  predicate JustBorn(s: State, id: string) {
    id in s.born && s.pc == Finishing && s.mem.vmID == Some(id) && s.mem.finalizer
  }

  ghost predicate Accounted(s: State) {
    forall id :: Alive(s, id) ==> id in s.lost || JustBorn(s, id) || Kept(s, id)
  }

  // What ties the history to the record.
  ghost predicate Bookkept(s: State) {
    && s.lost <= CreatedIds(s.w.log) && s.born <= CreatedIds(s.w.log) && s.born !! s.lost
    && (s.born != {} ==> s.pc == Finishing && s.mem.vmID.Some? && s.born == {s.mem.vmID.value})
    && (s.stored.vmID.Some? ==> s.stored.vmID.value in CreatedIds(s.w.log) - s.lost - s.born)
    && (s.pc != Idle && s.mem.vmID.Some? ==> s.mem.vmID.value in CreatedIds(s.w.log) - s.lost)
    && (s.pc == Creating ==> s.mem.vmID.None? && s.stored.vmID.None? && s.mem.finalizer && s.born == {})
    && (Order(s.pc) > 0 ==> s.mem.finalizer)
    && (s.pc != Idle && s.pc != Finishing ==> s.mem.vmID == s.stored.vmID)
  }

  lemma {:induction false} NoneCreated(log: seq<Event>, log': seq<Event>)
    requires log <= log' && forall i :: |log| <= i < |log'| ==> !log'[i].Created?
    ensures CreatedIds(log') == CreatedIds(log)
  {
    assert forall i :: 0 <= i < |log| ==> log'[i] == log[i];
  }

  lemma {:induction false} OneCreated(log: seq<Event>, id: string, name: string, parent: string)
    ensures CreatedIds(log + [Created(id, name, parent)]) == CreatedIds(log) + {id}
  {
    var log' := log + [Created(id, name, parent)];
    assert log'[|log|].Created?;
    assert forall i :: 0 <= i < |log| ==> log'[i] == log[i];
  }

  ghost predicate Tracked(s: State) {
    Bookkept(s) && Accounted(s)
  }

  lemma {:induction false} TrackedBetweenStages(s: State, s': State)
    requires Tracked(s)
    requires BeginStep(s, s') || RouteStep(s, s') || PatchStep(s, s') || LoseStep(s, s')
    ensures Tracked(s')
  {
  }

  lemma {:induction false} TrackedByOthers(s: State, s': State)
    requires Tracked(s) && OthersStep(s, s')
    ensures Tracked(s')
  {
  }

  lemma {:induction false} TrackedByProbe(s: State, s': State)
    requires Tracked(s) && ProbeStep(s, s')
    ensures Tracked(s')
  {
  }

  lemma {:induction false} TrackedByCalm(lib: Lib, s: State, s': State)
    requires Tracked(s) && CalmStep(lib, s, s')
    ensures Tracked(s')
  {
    NoneCreated(s.w.log, s'.w.log);
  }

  lemma {:induction false} TrackedByPower(s: State, s': State)
    requires Tracked(s) && PowerStep(s, s')
    ensures Tracked(s')
  {
    NoneCreated(s.w.log, s'.w.log);
  }

  lemma {:induction false} TrackedByDeletion(s: State, s': State)
    requires Tracked(s) && Dismantled(s, s')
    ensures Tracked(s')
  {
    NoneCreated(s.w.log, s'.w.log);
  }

  lemma {:induction false} TrackedByCreation(s: State, s': State)
    requires Tracked(s) && CreateStep(s, s')
    ensures Tracked(s')
  {
    if s'.out == Continue {
      OneCreated(s.w.log, s'.mem.vmID.value, s.d.name, s.d.templateID);
    }
  }

  lemma {:induction false} TrackedNext(lib: Lib, s: State, s': State)
    requires Tracked(s) && Move(lib, s, s')
    ensures Tracked(s')
  {
    if ProbeStep(s, s') {
      TrackedByProbe(s, s');
    } else if PowerStep(s, s') {
      TrackedByPower(s, s');
    } else if DeleteStep(s, s') {
      DeletionFrame(s, s');
      TrackedByDeletion(s, s');
    } else if CreateStep(s, s') {
      TrackedByCreation(s, s');
    } else if CalmStep(lib, s, s') {
      TrackedByCalm(lib, s, s');
    } else if OthersStep(s, s') {
      TrackedByOthers(s, s');
    } else {
      TrackedBetweenStages(s, s');
    }
  }

  lemma {:induction false} TrackedHolds(lib: Lib, run: seq<State>, i: nat)
    requires Moving(lib, run) && i < |run|
    ensures Tracked(run[i])
  {
    if i > 0 {
      TrackedHolds(lib, run, i - 1);
      MoveOf(lib, run, i);
      TrackedNext(lib, run[i - 1], run[i]);
    }
  }

  // The record does not lead to this VM: it is gone, names another, or has let go of its finalizer.
  predicate Orphan(s: State, id: string) {
    Alive(s, id) && !(s.alive && s.stored.vmID == Some(id) && s.stored.finalizer)
  }

  /** Between passes, the orphans are exactly the surviving VMs whose creating pass did not get its patch through. */
  lemma {:induction false} OrphansExactly(lib: Lib, run: seq<State>, i: nat, id: string)
    requires Run(lib, run) && i < |run| && run[i].pc == Idle
    ensures Orphan(run[i], id) <==> id in run[i].lost && id in run[i].w.vms
  {
    RunMoves(lib, run);
    TrackedHolds(lib, run, i);
  }

  // Every pass that created a VM ended with its patch.
  ghost predicate PatchesKept(run: seq<State>) {
    forall i :: 0 <= i < |run| - 1 ==> LoseStep(run[i], run[i + 1]) ==> run[i].born == {}
  }

  lemma {:induction false} NothingLost(lib: Lib, run: seq<State>, i: nat)
    requires Moving(lib, run) && PatchesKept(run) && i < |run|
    ensures run[i].lost == {}
  {
    if i > 0 {
      NothingLost(lib, run, i - 1);
      var s, s' := run[i - 1], run[i];
      MoveOf(lib, run, i);
      if LoseStep(s, s') {
        assert s'.lost == s.lost + s.born;
      }
    }
  }

  /**
   If every pass that created a VM ended with its patch, then between passes at most one VM of
   the machine exists, the record names it, and when the finalizer or the record is gone so is it.
   */
  lemma {:induction false} NoOrphans(lib: Lib, run: seq<State>, i: nat)
    requires Run(lib, run) && PatchesKept(run) && i < |run| && run[i].pc == Idle
    ensures forall id :: Alive(run[i], id) ==> run[i].alive && run[i].stored.vmID == Some(id) && run[i].stored.finalizer
    ensures forall id, other :: Alive(run[i], id) && Alive(run[i], other) ==> id == other
    ensures !run[i].alive || !run[i].stored.finalizer ==> forall id :: !Alive(run[i], id)
  {
    RunMoves(lib, run);
    TrackedHolds(lib, run, i);
    NothingLost(lib, run, i);
  }

  /******* The finalizer reaches the API server only with the patch that also names the VM *******/

  // A machine about to be cloned by its first pass.
  function FirstPass(d: Desired): State {
    var m := Record(false, false, None, None, None, None, Hardware(0, 0), None, [], None, [], false, false, false);
    var w := World(map[], [], map[], [], map[], None, true, true);
    State(Idle, true, m, d, m, w, Continue, {}, {}, {})
  }

  function Cloned(s: State, id: string): State {
    var vm := VM(PoweredOff, 1, 1, map[], map[], []);
    s.(pc := Finishing, born := {id}, w := s.w.(vms := s.w.vms[id := vm], log := s.w.log + [Created(id, s.d.name, s.d.templateID)]),
       mem := s.mem.(vmID := Some(id), providerID := Some(ProviderID(id)), hardware := Hardware(1, 1)))
  }

  lemma {:induction false} ClonedByStage(lib: Lib, s: State, id: string)
    requires s.pc == Creating && s.out == Continue && id !in s.w.vms && id !in CreatedIds(s.w.log) && !s.mem.bootstrapped
    ensures StageStep(lib, s, Cloned(s, id))
  {
    var s' := Cloned(s, id);
    assert s'.w.vms == s.w.vms[id := s'.w.vms[id]];
    assert CreateStage(s.d, s.mem, s.w, s'.mem, s'.w, Continue);
    assert s.stale + {} == s.stale;
  }

  /** A user who deletes the record while its first pass clones the VM leaves an orphan. */
  lemma {:induction false} OrphanHappens(lib: Lib, d: Desired, id: string) returns (run: seq<State>)
    ensures Run(lib, run) && run[|run| - 1].pc == Idle && Orphan(run[|run| - 1], id)
  {
    var s0 := FirstPass(d);
    var s1 := s0.(pc := Probing);
    var s2 := s1.(pc := Routing);
    var s3 := s2.(pc := Creating, mem := s2.mem.(finalizer := true));
    var s4 := Cloned(s3, id);
    var s5 := s4.(stored := s4.stored.(deleting := true), alive := false);
    var s6 := s5.(pc := Idle, lost := s5.lost + s5.born, born := {});
    ClonedByStage(lib, s3, id);
    OneCreated([], id, d.name, d.templateID);
    run := [s0, s1, s2, s3, s4, s5, s6];
    assert BeginStep(s0, s1) && ProbeStep(s1, s2) && RouteStep(s2, s3) && OthersStep(s4, s5) && LoseStep(s5, s6);
  }
}
