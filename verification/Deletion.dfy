/** A deleted machine is gone after at most two passes against a hypervisor that honours calls. */
module Deletion {
  import opened Options
  import opened Api
  import opened Cloud
  import opened Bootstrap
  import opened System
  import opened Moves

  predicate VMIsOff(m: Record, w: World) {
    m.vmID.Some? && m.vmID.value in w.vms && w.vms[m.vmID.value].power == PoweredOff
  }

  // How many passes a deleted machine still needs.
  function Remaining(s: State): nat {
    if !s.alive then 0
    else if s.stored.vmID.None? || VMIsOff(s.stored, s.w) then 1
    else 2
  }

  // A record marked deleted exists for as long as it holds its finalizer.
  ghost predicate Doomed(s: State) {
    s.stored.deleting && s.w.reliable && (s.alive ==> s.stored.finalizer)
  }

  predicate Gone(id: Option<string>, w: World) {
    id.Some? ==> id.value !in w.vms
  }

  // What a pass that started from `s0` makes of the record and the world.
  ghost predicate Closer(s0: State, m: Record, w: World) {
    && (s0.stored.vmID.None? ==> !m.finalizer && w == s0.w)
    && if !m.finalizer then Gone(s0.stored.vmID, w)
       else
         && Remaining(s0) == 2
         && if m.vmID.None? then Gone(s0.stored.vmID, w) else m.vmID == s0.stored.vmID && VMIsOff(m, w)
  }

  // Where such a pass can be.
  ghost predicate OnTheWay(s0: State, s: State) {
    && s.w.reliable && s.alive && s.stored.deleting
    && match s.pc
       case Probing => s.mem == s0.stored && s.mem.finalizer && s.stored == s0.stored && s.w == s0.w
       case Routing => Underway(s0, s)
       case Deleting => Underway(s0, s)
       case Finishing => Closer(s0, s.mem, s.w)
       case _ => false
  }

  ghost predicate Underway(s0: State, s: State) {
    && s.mem.deleting && s.mem.finalizer && s.mem.vmID == s0.stored.vmID && s.w == s0.w
    && (s.mem.vmID.Some? ==> s.mem.vmID.value in s.w.vms && s.mem.state == Some(s.w.vms[s.mem.vmID.value].power))
  }

  lemma {:induction false} ProbeOnTheWay(s0: State, s: State, s': State)
    requires OnTheWay(s0, s) && ProbeStep(s, s') && s0.alive
    ensures OnTheWay(s0, s')
  {
  }

  lemma {:induction false} DeleteOnTheWay(s0: State, s: State, s': State)
    requires OnTheWay(s0, s) && DeleteStep(s, s') && s0.alive
    ensures OnTheWay(s0, s')
  {
  }

  lemma {:induction false} StepOnTheWay(lib: Lib, s0: State, s: State, s': State)
    requires OnTheWay(s0, s) && PassStep(lib, s, s') && s'.pc != Idle && s0.alive
    ensures OnTheWay(s0, s')
  {
    if ProbeStep(s, s') {
      ProbeOnTheWay(s0, s, s');
    } else if s.pc == Deleting {
      assert DeleteStep(s, s');
      DeleteOnTheWay(s0, s, s');
    }
  }

  lemma {:induction false} AlongTheWay(lib: Lib, path: seq<State>, i: nat)
    requires Pass(lib, path) && Doomed(path[0]) && 0 < i < |path| - 1
    ensures OnTheWay(path[0], path[i]) && path[0].alive
  {
    PassStepOf(lib, path, i);
    if i == 1 {
      } else {
      AlongTheWay(lib, path, i - 1);
      StepOnTheWay(lib, path[0], path[i - 1], path[i]);
    }
  }

  lemma {:induction false} PassDismantles(lib: Lib, path: seq<State>)
    requires Pass(lib, path) && Doomed(path[0])
    ensures var end := path[|path| - 1];
            Doomed(end) && path[0].alive && end.alive == end.stored.finalizer && Closer(path[0], end.stored, end.w)
  {
    var n := |path|;
    PassEndsAt(lib, path);
    AlongTheWay(lib, path, n - 2);
  }

  /** Each undisturbed pass over a deleted record brings it closer to its end. */
  lemma {:induction false} DeletionProgress(lib: Lib, path: seq<State>)
    requires Pass(lib, path) && Doomed(path[0])
    ensures Doomed(path[|path| - 1]) && Remaining(path[|path| - 1]) < Remaining(path[0])
  {
    PassDismantles(lib, path);
  }

  /** After two passes in a row the record is gone, and with it the VM it named. */
  lemma {:induction false} DeletedInTwoPasses(lib: Lib, first: seq<State>, second: seq<State>)
    requires Pass(lib, first) && Doomed(first[0])
    requires first[|first| - 1].alive ==> Pass(lib, second) && second[0] == first[|first| - 1]
    ensures var end := if first[|first| - 1].alive then second[|second| - 1] else first[|first| - 1];
            !end.alive && Gone(first[0].stored.vmID, end.w)
  {
    PassDismantles(lib, first);
    if first[|first| - 1].alive {
      PassDismantles(lib, second);
    }
  }

  // A record marked deleted holds its finalizer, as long as there is a record.
  ghost predicate HeldByFinalizer(s: State) {
    s.alive ==> Survives(s.stored)
  }

  /** On every run a deleted record that still exists holds its finalizer, so the passes above apply to it. */
  lemma {:induction false} DeletedHoldsFinalizer(lib: Lib, run: seq<State>, i: nat)
    requires Run(lib, run) && i < |run|
    ensures HeldByFinalizer(run[i])
  {
    RunMoves(lib, run);
    HeldAlongMoves(lib, run, i);
  }

  lemma {:induction false} HeldAlongMoves(lib: Lib, run: seq<State>, i: nat)
    requires Moving(lib, run) && i < |run|
    ensures HeldByFinalizer(run[i])
  {
    if i > 0 {
      HeldAlongMoves(lib, run, i - 1);
      MoveOf(lib, run, i);
      HeldNext(lib, run[i - 1], run[i]);
    }
  }

  lemma {:induction false} HeldNext(lib: Lib, s: State, s': State)
    requires HeldByFinalizer(s) && Move(lib, s, s')
    ensures HeldByFinalizer(s')
  {
  }
}
