/** The two ids of a machine, and why reading them never fails. */
module Identity {
  import opened Api
  import opened Cloud
  import opened Bootstrap
  import opened System
  import opened Moves

  predicate Consistent(m: Record) {
    && (m.providerID.Some? ==> m.vmID.Some? && m.providerID.value == ProviderID(m.vmID.value))
    && (m.vmID.Some? && m.providerID.None? ==> m.bootstrapped)
  }

  // From the probe on, a machine with a VM has a power state.
  predicate Probed(pc: Pc) {
    pc == Routing || pc == Deleting || Order(pc) > 0
  }

  ghost predicate Identified(s: State) {
    && Consistent(s.stored)
    && (s.pc != Idle ==> Consistent(s.mem))
    && (Order(s.pc) > 0 ==> s.mem.vmID.Some?)
    && (s.pc == Creating ==> s.mem.vmID.None?)
    && (Probed(s.pc) && s.mem.vmID.Some? ==> s.mem.state.Some?)
    && (Order(s.pc) > 0 ==> Settled(s.d, s.mem, s.pc))
  }

  lemma {:induction false} KeptBetweenStages(s: State, s': State)
    requires Identified(s)
    requires BeginStep(s, s') || RouteStep(s, s') || PatchStep(s, s') || LoseStep(s, s') || OthersStep(s, s')
    ensures Identified(s')
  {
  }

  lemma {:induction false} KeptByProbe(s: State, s': State)
    requires Identified(s) && ProbeStep(s, s')
    ensures Identified(s')
  {
  }

  lemma {:induction false} KeptByStage(lib: Lib, s: State, s': State)
    requires Identified(s)
    requires CalmStep(lib, s, s') || CreateStep(s, s')
    ensures Identified(s')
  {
  }

  lemma {:induction false} KeptByPower(s: State, s': State)
    requires Identified(s) && PowerStep(s, s')
    ensures Identified(s')
  {
    assert s'.mem == s.mem.(state := s'.mem.state, providerID := s'.mem.providerID);
  }

  lemma {:induction false} KeptByDeletion(s: State, s': State)
    requires Identified(s) && DeleteStep(s, s')
    ensures Identified(s')
  {
    assert s'.mem == s.mem.(state := s'.mem.state, finalizer := s'.mem.finalizer);
  }

  lemma {:induction false} IdentityKept(lib: Lib, s: State, s': State)
    requires Identified(s) && Move(lib, s, s')
    ensures Identified(s')
  {
    if ProbeStep(s, s') {
      KeptByProbe(s, s');
    } else if PowerStep(s, s') {
      KeptByPower(s, s');
    } else if DeleteStep(s, s') {
      KeptByDeletion(s, s');
    } else if CalmStep(lib, s, s') || CreateStep(s, s') {
      KeptByStage(lib, s, s');
    } else {
      KeptBetweenStages(s, s');
    }
  }

  lemma {:induction false} IdentityHolds(lib: Lib, run: seq<State>, i: nat)
    requires Moving(lib, run) && i < |run|
    ensures Identified(run[i])
  {
    if i > 0 {
      IdentityHolds(lib, run, i - 1);
      MoveOf(lib, run, i);
      IdentityKept(lib, run[i - 1], run[i]);
    }
  }

  /**
   On every run: the provider id names the VM, a VM without provider id was bootstrapped, and
   the reads of the provider id and of the power state never meet nil.
   */
  lemma {:induction false} IdsOnEveryRun(lib: Lib, run: seq<State>, i: nat)
    requires Run(lib, run) && i < |run|
    ensures Consistent(run[i].stored) && (run[i].pc != Idle ==> Consistent(run[i].mem))
    ensures var m := run[i].stored;
            m.providerID.Some? ==> m.vmID.Some? && m.providerID.value == "vmwaredesktop://" + m.vmID.value
    ensures run[i].pc == AtBootstrap && !run[i].mem.bootstrapped ==> run[i].mem.providerID.Some?
    ensures run[i].pc == AtPower ==> run[i].mem.state.Some?
    ensures run[i].pc == Deleting && run[i].mem.vmID.Some? ==> run[i].mem.state.Some?
  {
    RunMoves(lib, run);
    IdentityHolds(lib, run, i);
  }
}
