/** What "ready" means, that it is never taken back, and that a deleted machine gets no new VM. */
module Readiness {
  import opened Api
  import opened Cloud
  import opened Bootstrap
  import opened Addresses
  import opened System
  import opened Frames
  import opened Moves
  import opened Orphans

  // The addresses are those of some report of the guest, flattened, and enough for the spec.
  ghost predicate Reports(lib: Lib, d: Desired, guest: seq<seq<string>>, addresses: seq<MachineAddress>) {
    && !AnyMalformed(lib, Ethernets(d), guest)
    && addresses == AllKept(lib, Ethernets(d), guest) && |addresses| >= |Ethernets(d)|
  }

  ghost predicate HonestlyReady(lib: Lib, d: Desired, m: Record) {
    && m.ready == m.provisioned
    && (m.addresses != [] ==> m.ready)
    && (m.ready ==> m.bootstrapped && exists guest :: Reports(lib, d, guest, m.addresses))
  }

  // What `m` says of readiness, `m'` says too.
  predicate NotRevoked(m: Record, m': Record) {
    (m.ready ==> m'.ready) && (m.addresses != [] ==> m'.addresses == m.addresses)
  }

  ghost predicate Readying(lib: Lib, s: State) {
    && HonestlyReady(lib, s.d, s.stored)
    && (s.pc != Idle ==> HonestlyReady(lib, s.d, s.mem) && NotRevoked(s.stored, s.mem))
    && (Order(s.pc) > 0 ==> Settled(s.d, s.mem, s.pc))
  }

  lemma {:induction false} ReadyByCalm(lib: Lib, s: State, s': State)
    requires Readying(lib, s) && CalmStep(lib, s, s')
    ensures Readying(lib, s') && NotRevoked(s.stored, s'.stored)
  {
    if FoundAddresses(lib, s.d, s'.w, s.mem.vmID.value, s'.mem) {
      assert Reports(lib, s.d, s'.w.vms[s.mem.vmID.value].guest, s'.mem.addresses);
    }
  }

  lemma {:induction false} ReadyByLifecycle(lib: Lib, s: State, s': State)
    requires Readying(lib, s) && (CreateStep(s, s') || Dismantled(s, s'))
    ensures Readying(lib, s') && NotRevoked(s.stored, s'.stored)
  {
  }

  lemma {:induction false} ReadyByPower(lib: Lib, s: State, s': State)
    requires Readying(lib, s) && Switched(s, s')
    ensures Readying(lib, s') && NotRevoked(s.stored, s'.stored)
  {
  }

  lemma {:induction false} ReadyByProbe(lib: Lib, s: State, s': State)
    requires Readying(lib, s) && ProbeStep(s, s')
    ensures Readying(lib, s') && NotRevoked(s.stored, s'.stored)
  {
  }

  lemma {:induction false} ReadyBetweenStages(lib: Lib, s: State, s': State)
    requires Readying(lib, s) && s'.d == s.d
    requires BeginStep(s, s') || RouteStep(s, s') || PatchStep(s, s') || LoseStep(s, s') || OthersStep(s, s')
    ensures Readying(lib, s') && NotRevoked(s.stored, s'.stored)
  {
  }

  lemma {:induction false} ReadyNext(lib: Lib, s: State, s': State)
    requires Readying(lib, s) && Move(lib, s, s') && s'.d == s.d
    ensures Readying(lib, s') && NotRevoked(s.stored, s'.stored)
  {
    if CalmStep(lib, s, s') {
      ReadyByCalm(lib, s, s');
    } else if PowerStep(s, s') {
      PowerFrame(s, s');
      ReadyByPower(lib, s, s');
    } else if ProbeStep(s, s') {
      ReadyByProbe(lib, s, s');
    } else if DeleteStep(s, s') {
      DeletionFrame(s, s');
      ReadyByLifecycle(lib, s, s');
    } else if CreateStep(s, s') {
      ReadyByLifecycle(lib, s, s');
    } else {
      ReadyBetweenStages(lib, s, s');
    }
  }

  ghost predicate SpecFixed(run: seq<State>) {
    forall i :: 0 <= i < |run| - 1 ==> run[i + 1].d == run[i].d
  }

  lemma {:induction false} ReadyHolds(lib: Lib, run: seq<State>, i: nat)
    requires Moving(lib, run) && SpecFixed(run) && i < |run|
    ensures Readying(lib, run[i])
  {
    if i > 0 {
      ReadyHolds(lib, run, i - 1);
      MoveOf(lib, run, i);
      ReadyNext(lib, run[i - 1], run[i]);
    }
  }

  lemma {:induction false} ReadyStep(lib: Lib, run: seq<State>, j: nat)
    requires Moving(lib, run) && SpecFixed(run) && 0 < j < |run|
    ensures NotRevoked(run[j - 1].stored, run[j].stored)
  {
    ReadyHolds(lib, run, j - 1);
    MoveOf(lib, run, j);
    ReadyNext(lib, run[j - 1], run[j]);
  }

  lemma {:induction false} ReadyStays(lib: Lib, run: seq<State>, i: nat, j: nat)
    requires Moving(lib, run) && SpecFixed(run) && i <= j < |run|
    ensures NotRevoked(run[i].stored, run[j].stored)
  {
    if i < j {
      ReadyStays(lib, run, i, j - 1);
      ReadyStep(lib, run, j);
    }
  }

  /**
   With a fixed spec, in every reachable state a ready machine is provisioned, bootstrapped and has
   the addresses of one report of its guest, at least one for each ethernet; and it stays ready,
   with the same addresses.
   */
  lemma {:induction false} ReadyMeans(lib: Lib, run: seq<State>, i: nat, j: nat)
    requires Run(lib, run) && SpecFixed(run) && i <= j < |run|
    ensures run[i].stored.ready == run[i].stored.provisioned
    ensures run[i].stored.ready ==> run[i].stored.bootstrapped
    ensures run[i].stored.ready ==> exists guest :: Reports(lib, run[i].d, guest, run[i].stored.addresses)
    ensures run[i].stored.ready ==> run[j].stored.ready
    ensures run[i].stored.addresses != [] ==> run[i].stored.ready && run[j].stored.addresses == run[i].stored.addresses
  {
    RunMoves(lib, run);
    ReadyHolds(lib, run, i);
    ReadyStays(lib, run, i, j);
  }

  /******* Once marked deleted *******/

  ghost predicate Condemned(s: State) {
    s.stored.deleting && (s.pc != Idle ==> s.mem.deleting && s.pc != Creating && Order(s.pc) == 0)
  }

  lemma {:induction false} CondemnedNext(lib: Lib, s: State, s': State)
    requires Condemned(s) && Move(lib, s, s')
    ensures Condemned(s') && CreatedIds(s'.w.log) == CreatedIds(s.w.log)
  {
    if DeleteStep(s, s') {
      DeletionFrame(s, s');
      CondemnedByDeletion(s, s');
    } else {
      assert BeginStep(s, s') || ProbeStep(s, s') || RouteStep(s, s') || PatchStep(s, s') || LoseStep(s, s') || OthersStep(s, s');
      assert s'.w.log == s.w.log;
    }
  }

  lemma {:induction false} CondemnedByDeletion(s: State, s': State)
    requires Condemned(s) && Dismantled(s, s')
    ensures Condemned(s') && CreatedIds(s'.w.log) == CreatedIds(s.w.log)
  {
    NoneCreated(s.w.log, s'.w.log);
  }

  lemma {:induction false} CondemnedAt(lib: Lib, run: seq<State>, j: nat)
    requires Moving(lib, run) && 0 < j < |run| && Condemned(run[j - 1])
    ensures Condemned(run[j]) && CreatedIds(run[j].w.log) == CreatedIds(run[j - 1].w.log)
  {
    var s, s' := run[j - 1], run[j];
    MoveOf(lib, run, j);
    CondemnedNext(lib, s, s');
  }

  lemma {:induction false} CondemnedHolds(lib: Lib, run: seq<State>, i: nat, j: nat, ids: set<string>)
    requires Moving(lib, run) && i <= j < |run| && Condemned(run[i]) && ids == CreatedIds(run[i].w.log)
    ensures Condemned(run[j]) && CreatedIds(run[j].w.log) == ids
  {
    if i < j {
      CondemnedHolds(lib, run, i, j - 1, ids);
      CondemnedAt(lib, run, j);
    }
  }

  /** After a state between passes in which the record is marked deleted, no VM is ever created. */
  lemma {:induction false} NoVMOnceDeleted(lib: Lib, run: seq<State>, i: nat, j: nat)
    requires Run(lib, run) && i <= j < |run| && run[i].pc == Idle && run[i].stored.deleting
    ensures run[j].stored.deleting && CreatedIds(run[j].w.log) == CreatedIds(run[i].w.log)
  {
    RunMoves(lib, run);
    CondemnedHolds(lib, run, i, j, CreatedIds(run[i].w.log));
  }
}
