/**
 The provider id, by which Cluster API knows the machine: on every run it is that of the machine's VM,
 no other VM has it, and a record whose VM exists has it.
 */
module ProviderIds {
  import opened Options
  import opened Api
  import opened Cloud
  import opened Lifecycle
  import opened Bootstrap
  import opened System
  import opened Moves
  import opened Identity
  import opened Orphans

  /** The record of a fresh clone names it by the scheme and the id of the VM. */
  lemma {:induction false} CloneIsNamed(d: Desired, m: Record, w: World, m': Record, w': World)
    requires CreateStage(d, m, w, m', w', Continue)
    ensures m'.vmID.Some? && m'.vmID.value in w'.vms && m'.vmID.value !in w.vms
    ensures m'.providerID == Some("vmwaredesktop://" + m'.vmID.value)
  {
  }

  // A record with a VM but no provider id has lost its VM.
  ghost predicate Known(m: Record, w: World) {
    m.vmID.Some? && m.providerID.None? ==> m.vmID.value !in w.vms && m.vmID.value in CreatedIds(w.log)
  }

  ghost predicate AllKnown(s: State) {
    Known(s.stored, s.w) && (s.pc != Idle ==> Known(s.mem, s.w))
  }

  lemma {:induction false} KnownByCalm(lib: Lib, s: State, s': State)
    requires AllKnown(s) && CalmStep(lib, s, s')
    ensures AllKnown(s')
  {
    NoneCreated(s.w.log, s'.w.log);
  }

  lemma {:induction false} KnownByCreation(s: State, s': State)
    requires AllKnown(s) && CreateStep(s, s')
    ensures AllKnown(s')
  {
    if s'.out == Continue {
      OneCreated(s.w.log, s'.mem.vmID.value, s.d.name, s.d.templateID);
    }
  }

  lemma {:induction false} KnownByDeletion(s: State, s': State)
    requires AllKnown(s) && Dismantled(s, s')
    ensures AllKnown(s')
  {
    NoneCreated(s.w.log, s'.w.log);
  }

  lemma {:induction false} KnownByPower(s: State, s': State)
    requires AllKnown(s) && Tracked(s) && PowerStep(s, s')
    ensures AllKnown(s')
  {
    NoneCreated(s.w.log, s'.w.log);
  }

  lemma {:induction false} KnownBetweenStages(s: State, s': State)
    requires AllKnown(s)
    requires BeginStep(s, s') || ProbeStep(s, s') || RouteStep(s, s') || PatchStep(s, s') || LoseStep(s, s') || OthersStep(s, s')
    ensures AllKnown(s')
  {
  }

  lemma {:induction false} KnownNext(lib: Lib, s: State, s': State)
    requires AllKnown(s) && Tracked(s) && Move(lib, s, s')
    ensures AllKnown(s')
  {
    if CalmStep(lib, s, s') {
      KnownByCalm(lib, s, s');
    } else if CreateStep(s, s') {
      KnownByCreation(s, s');
    } else if DeleteStep(s, s') {
      DeletionFrame(s, s');
      KnownByDeletion(s, s');
    } else if PowerStep(s, s') {
      KnownByPower(s, s');
    } else {
      KnownBetweenStages(s, s');
    }
  }

  lemma {:induction false} KnownAlong(lib: Lib, run: seq<State>, i: nat)
    requires Moving(lib, run) && i < |run|
    ensures AllKnown(run[i])
  {
    if i > 0 {
      KnownAlong(lib, run, i - 1);
      TrackedHolds(lib, run, i - 1);
      MoveOf(lib, run, i);
      KnownNext(lib, run[i - 1], run[i]);
    }
  }

  /**
   On every run: a provider id that is set is the scheme followed by the id of the VM the record names;
   and it is set whenever that VM exists.
   */
  lemma {:induction false} ProviderIdNamesVM(lib: Lib, run: seq<State>, i: nat)
    requires Run(lib, run) && i < |run|
    ensures var m := run[i].stored;
            m.providerID.Some? ==> m.vmID.Some? && m.providerID.value == "vmwaredesktop://" + m.vmID.value
    ensures var m := run[i].stored;
            m.vmID.Some? && m.vmID.value in run[i].w.vms ==> m.providerID == Some("vmwaredesktop://" + m.vmID.value)
    ensures var m := run[i].mem;
            run[i].pc != Idle && m.vmID.Some? && m.vmID.value in run[i].w.vms ==> m.providerID == Some("vmwaredesktop://" + m.vmID.value)
  {
    IdsOnEveryRun(lib, run, i);
    RunMoves(lib, run);
    KnownAlong(lib, run, i);
  }

  /** Two machines, or one machine at two times, have the same provider id only if they name the same VM. */
  lemma {:induction false} ProviderIdsDiffer(lib: Lib, run: seq<State>, i: nat, other: seq<State>, j: nat)
    requires Run(lib, run) && i < |run| && Run(lib, other) && j < |other|
    requires run[i].stored.providerID.Some? && other[j].stored.providerID.Some?
    ensures run[i].stored.providerID == other[j].stored.providerID <==> run[i].stored.vmID == other[j].stored.vmID
  {
    var a, b := run[i].stored, other[j].stored;
    ProviderIdNamesVM(lib, run, i);
    ProviderIdNamesVM(lib, other, j);
    var scheme := "vmwaredesktop://";
    assert a.providerID.value[|scheme|..] == a.vmID.value && b.providerID.value[|scheme|..] == b.vmID.value;
  }
}
