/** No VM is turned on before its bootstrap data is in place, and exactly when that fails. */
module PowerGate {
  import opened Api
  import opened Cloud
  import opened Lifecycle
  import opened Folders
  import opened Claims
  import opened Bootstrap
  import opened System
  import opened Frames
  import opened Moves
  import opened Orphans

  // Each VM turned on had been given its bootstrap parameters before, unless it was created for a
  // record that claimed to be bootstrapped already; such a VM had none of them.
  ghost predicate Gated(log: seq<Event>, stale: set<string>) {
    forall k :: 0 <= k < |log| && log[k].TurnedOn? ==> (Booted(log[..k], log[k].id) <==> log[k].id !in stale)
  }

  // The VM this record names was bootstrapped if the record says so.
  ghost predicate Honest(m: Record, log: seq<Event>, stale: set<string>) {
    && (m.vmID.Some? ==> m.vmID.value in CreatedIds(log))
    && (m.bootstrapped && m.vmID.Some? ==> Booted(log, m.vmID.value) || m.vmID.value in stale)
    && (stale != {} ==> m.bootstrapped)
  }

  // Only VMs of this machine are turned on or given bootstrap parameters, and no stale one is given any.
  ghost predicate EventsKnown(log: seq<Event>, stale: set<string>) {
    && (forall i :: 0 <= i < |log| && (IsGuestWrite(log[i]) || log[i].TurnedOn?) ==> log[i].id in CreatedIds(log))
    && (forall i :: 0 <= i < |log| && IsGuestWrite(log[i]) ==> log[i].id !in stale)
  }

  ghost predicate Watched(s: State) {
    && s.stale <= CreatedIds(s.w.log)
    && EventsKnown(s.w.log, s.stale)
    && Gated(s.w.log, s.stale)
    && Honest(s.stored, s.w.log, s.stale) && (s.pc != Idle ==> Honest(s.mem, s.w.log, s.stale))
    && (s.pc != Idle && s.stored.bootstrapped ==> s.mem.bootstrapped)
    && (s.pc == Probing || s.pc == Routing || s.pc == Creating ==> s.mem.bootstrapped == s.stored.bootstrapped)
    && (s.pc == Creating ==> s.mem.vmID.None?)
    && (Order(s.pc) > 0 ==> s.mem.vmID.Some? && Settled(s.d, s.mem, s.pc))
  }

  lemma {:induction false} StaysWritten(log: seq<Event>, log': seq<Event>, id: string)
    requires log <= log' && Booted(log, id)
    ensures Booted(log', id)
  {
    forall f: GuestField
      ensures Written(log', id, GuestInfo(f))
    {
      assert Written(log, id, GuestInfo(f));
      var i :| 0 <= i < |log| && log[i].Configured? && log[i].id == id && log[i].key == GuestInfo(f);
      assert log'[i] == log[i];
    }
  }

  lemma {:induction false} HonestLater(m: Record, log: seq<Event>, log': seq<Event>, stale: set<string>)
    requires log <= log' && Honest(m, log, stale) && CreatedIds(log) <= CreatedIds(log')
    ensures Honest(m, log', stale)
  {
    if m.vmID.Some? && Booted(log, m.vmID.value) {
      StaysWritten(log, log', m.vmID.value);
    }
  }

  // Events other than turning on a VM leave the gate as it was.
  lemma {:induction false} GateLater(log: seq<Event>, log': seq<Event>, stale: set<string>)
    requires log <= log' && Gated(log, stale)
    requires forall i :: |log| <= i < |log'| ==> !log'[i].TurnedOn?
    ensures Gated(log', stale)
  {
    forall k | 0 <= k < |log'| && log'[k].TurnedOn?
      ensures Booted(log'[..k], log'[k].id) <==> log'[k].id !in stale
    {
      assert log'[..k] == log[..k] && log'[k] == log[k];
    }
  }

  lemma {:induction false} NeverBooted(log: seq<Event>, stale: set<string>, id: string)
    requires EventsKnown(log, stale) && id in stale
    ensures !Booted(log, id)
  {
    assert forall i :: 0 <= i < |log| && log[i].Configured? && log[i].key == GuestInfo(UserData) ==> IsGuestWrite(log[i]);
    assert !Written(log, id, GuestInfo(UserData));
  }

  lemma {:induction false} WatchedBetweenStages(s: State, s': State)
    requires Watched(s)
    requires BeginStep(s, s') || RouteStep(s, s') || LoseStep(s, s')
    ensures Watched(s')
  {
  }

  lemma {:induction false} WatchedByPatch(s: State, s': State)
    requires Watched(s) && (PatchStep(s, s') || OthersStep(s, s'))
    ensures Watched(s')
  {
  }

  lemma {:induction false} WatchedByProbe(s: State, s': State)
    requires Watched(s) && ProbeStep(s, s')
    ensures Watched(s')
  {
  }

  lemma {:induction false} WatchedByCalm(lib: Lib, s: State, s': State)
    requires Watched(s) && CalmStep(lib, s, s')
    ensures Watched(s')
  {
    var log, log' := s.w.log, s'.w.log;
    NoneCreated(log, log');
    GateLater(log, log', s.stale);
    HonestLater(s.stored, log, log', s.stale);
    HonestLater(s.mem, log, log', s.stale);
    KnownByCalm(lib, s, s');
  }

  lemma {:induction false} KnownByCalm(lib: Lib, s: State, s': State)
    requires Watched(s) && CalmStep(lib, s, s')
    ensures EventsKnown(s'.w.log, s.stale)
  {
    assert forall i :: 0 <= i < |s.w.log| ==> s'.w.log[i] == s.w.log[i];
  }

  lemma {:induction false} WatchedByPower(s: State, s': State)
    requires Watched(s) && PowerStep(s, s')
    ensures Watched(s')
  {
    var log, log' := s.w.log, s'.w.log;
    if log' != log {
      TurnedOnGated(s, s');
    }
    PowerFrame(s, s');
    NoneCreated(log, log');
    HonestLater(s.stored, log, log', s.stale);
    HonestLater(s.mem, log, log', s.stale);
  }

  lemma {:induction false} TurnedOnGated(s: State, s': State)
    requires Watched(s) && PowerStep(s, s') && s'.w.log != s.w.log
    ensures Gated(s'.w.log, s.stale) && EventsKnown(s'.w.log, s.stale)
  {
    var log, id := s.w.log, s.mem.vmID.value;
    assert s'.w.log[..|log|] == log;
    if id in s.stale {
      NeverBooted(log, s.stale, id);
    }
    GateOpened(log, id, s.stale);
  }

  lemma {:induction false} GateOpened(log: seq<Event>, id: string, stale: set<string>)
    requires Gated(log, stale) && (Booted(log, id) <==> id !in stale)
    ensures Gated(log + [TurnedOn(id)], stale)
  {
    var log' := log + [TurnedOn(id)];
    forall k | 0 <= k < |log'| && log'[k].TurnedOn?
      ensures Booted(log'[..k], log'[k].id) <==> log'[k].id !in stale
    {
      assert log'[..k] == log[..k];
      if k == |log| {
        assert log[..k] == log;
      }
    }
  }

  lemma {:induction false} KnownLater(log: seq<Event>, log': seq<Event>, stale: set<string>)
    requires log <= log' && EventsKnown(log, stale) && CreatedIds(log') == CreatedIds(log)
    requires forall i :: |log| <= i < |log'| ==> !IsGuestWrite(log'[i]) && !log'[i].TurnedOn?
    ensures EventsKnown(log', stale)
  {
    assert forall i :: 0 <= i < |log| ==> log'[i] == log[i];
  }

  lemma {:induction false} WatchedByDeletion(s: State, s': State)
    requires Watched(s) && Dismantled(s, s')
    ensures Watched(s')
  {
    var log, log' := s.w.log, s'.w.log;
    NoneCreated(log, log');
    GateLater(log, log', s.stale);
    KnownLater(log, log', s.stale);
    HonestLater(s.stored, log, log', s.stale);
    HonestLater(s.mem, log, log', s.stale);
  }

  lemma {:induction false} Newcomer(log: seq<Event>, id: string, name: string, parent: string, stale: set<string>)
    requires EventsKnown(log, stale) && Gated(log, stale) && id !in CreatedIds(log)
    ensures EventsKnown(log + [Created(id, name, parent)], stale + {id})
    ensures Gated(log + [Created(id, name, parent)], stale + {id})
    ensures EventsKnown(log + [Created(id, name, parent)], stale)
  {
    var log' := log + [Created(id, name, parent)];
    OneCreated(log, id, name, parent);
    assert forall i :: 0 <= i < |log| ==> log'[i] == log[i];
    assert Gated(log, stale + {id});
    GateLater(log, log', stale + {id});
  }

  lemma {:induction false} WatchedByCreation(s: State, s': State)
    requires Watched(s) && CreateStep(s, s')
    ensures Watched(s')
  {
    if s'.out == Continue {
      var id, log, log' := s'.mem.vmID.value, s.w.log, s'.w.log;
      OneCreated(log, id, s.d.name, s.d.templateID);
      Newcomer(log, id, s.d.name, s.d.templateID, s.stale);
      GateLater(log, log', s.stale);
      HonestLater(s.stored, log, log', s.stale);
    }
  }

  lemma {:induction false} WatchedNext(lib: Lib, s: State, s': State)
    requires Watched(s) && Move(lib, s, s')
    ensures Watched(s')
  {
    if ProbeStep(s, s') {
      WatchedByProbe(s, s');
    } else if PowerStep(s, s') {
      WatchedByPower(s, s');
    } else if DeleteStep(s, s') {
      DeletionFrame(s, s');
      WatchedByDeletion(s, s');
    } else if CreateStep(s, s') {
      WatchedByCreation(s, s');
    } else if CalmStep(lib, s, s') {
      WatchedByCalm(lib, s, s');
    } else if PatchStep(s, s') || OthersStep(s, s') {
      WatchedByPatch(s, s');
    } else {
      WatchedBetweenStages(s, s');
    }
  }

  lemma {:induction false} WatchedHolds(lib: Lib, run: seq<State>, i: nat)
    requires Moving(lib, run) && i < |run|
    ensures Watched(run[i])
  {
    if i > 0 {
      WatchedHolds(lib, run, i - 1);
      MoveOf(lib, run, i);
      WatchedNext(lib, run[i - 1], run[i]);
    }
  }

  /**
   On every run, with failed calls and failed patches: a VM that was turned on had all four
   bootstrap parameters written to it before, exactly unless it was created for a record that
   already said "bootstrapped".
   */
  lemma {:induction false} PowerOnGated(lib: Lib, run: seq<State>, i: nat, k: nat)
    requires Run(lib, run) && i < |run| && k < |run[i].w.log| && run[i].w.log[k].TurnedOn?
    ensures Booted(run[i].w.log[..k], run[i].w.log[k].id) <==> run[i].w.log[k].id !in run[i].stale
  {
    RunMoves(lib, run);
    WatchedHolds(lib, run, i);
  }

  /******* Runs in which nobody else removes VMs *******/

  ghost predicate NoRemovals(run: seq<State>) {
    forall i :: 0 <= i < |run| - 1 && OthersStep(run[i], run[i + 1]) ==> run[i].w.vms.Keys <= run[i + 1].w.vms.Keys
  }

  // Unless the machine is on its way out, its VM exists, and without a VM it is not bootstrapped.
  predicate Whole(m: Record, w: World) {
    m.deleting || ((m.vmID.Some? ==> m.vmID.value in w.vms) && (m.bootstrapped ==> m.vmID.Some?))
  }

  ghost predicate Unharmed(s: State) {
    && s.stale == {} && Whole(s.stored, s.w)
    && (s.pc != Idle ==> Whole(s.mem, s.w) && (s.mem.deleting ==> s.stored.deleting))
    && (s.pc == Creating ==> s.mem.vmID.None?)
    && (s.pc == Creating || Order(s.pc) > 0 ==> !s.mem.deleting)
    && (Order(s.pc) > 0 ==> s.mem.vmID.Some?)
    && (s.pc == Deleting ==> s.mem.deleting)
  }

  lemma {:induction false} UnharmedByCalm(lib: Lib, s: State, s': State)
    requires Unharmed(s) && CalmStep(lib, s, s')
    ensures Unharmed(s')
  {
  }

  lemma {:induction false} UnharmedByLifecycle(s: State, s': State)
    requires Unharmed(s) && (CreateStep(s, s') || Switched(s, s') || Dismantled(s, s'))
    ensures Unharmed(s')
  {
  }

  lemma {:induction false} UnharmedByProbe(s: State, s': State)
    requires Unharmed(s) && ProbeStep(s, s')
    ensures Unharmed(s')
  {
  }

  lemma {:induction false} UnharmedBetweenStages(s: State, s': State)
    requires Unharmed(s)
    requires BeginStep(s, s') || RouteStep(s, s') || LoseStep(s, s')
      || (OthersStep(s, s') && s.w.vms.Keys <= s'.w.vms.Keys)
    ensures Unharmed(s')
  {
  }

  lemma {:induction false} UnharmedByPatch(s: State, s': State)
    requires Unharmed(s) && PatchStep(s, s')
    ensures Unharmed(s')
  {
  }

  lemma {:induction false} UnharmedNext(lib: Lib, s: State, s': State)
    requires Unharmed(s) && Move(lib, s, s') && (OthersStep(s, s') ==> s.w.vms.Keys <= s'.w.vms.Keys)
    ensures Unharmed(s')
  {
    if CalmStep(lib, s, s') {
      UnharmedByCalm(lib, s, s');
    } else if CreateStep(s, s') {
      UnharmedByLifecycle(s, s');
    } else if PowerStep(s, s') {
      PowerFrame(s, s');
      UnharmedByLifecycle(s, s');
    } else if DeleteStep(s, s') {
      DeletionFrame(s, s');
      UnharmedByLifecycle(s, s');
    } else if ProbeStep(s, s') {
      UnharmedByProbe(s, s');
    } else if PatchStep(s, s') {
      UnharmedByPatch(s, s');
    } else {
      UnharmedBetweenStages(s, s');
    }
  }

  lemma {:induction false} UnharmedHolds(lib: Lib, run: seq<State>, i: nat)
    requires Moving(lib, run) && NoRemovals(run) && i < |run|
    ensures Unharmed(run[i])
  {
    if i > 0 {
      UnharmedHolds(lib, run, i - 1);
      MoveOf(lib, run, i);
      UnharmedNext(lib, run[i - 1], run[i]);
    }
  }

  /** If nobody else removes VMs, every VM that was turned on had its bootstrap parameters before. */
  lemma {:induction false} PowerOnAfterBootstrap(lib: Lib, run: seq<State>, i: nat, k: nat)
    requires Run(lib, run) && NoRemovals(run) && i < |run|
    requires k < |run[i].w.log| && run[i].w.log[k].TurnedOn?
    ensures Booted(run[i].w.log[..k], run[i].w.log[k].id)
  {
    PowerOnGated(lib, run, i, k);
    RunMoves(lib, run);
    UnharmedHolds(lib, run, i);
  }

  /******* The pass that turns the VM on *******/

  // Since step j, the claims stage of this pass, the pass went on without a stop.
  ghost predicate SamePass(run: seq<State>, j: nat, i: nat) {
    && j < i < |run| && run[i].d == run[j].d
    && forall k :: j <= k <= i ==> run[k].pc != Idle
  }

  // Every pool reference of `d` was answered when the world was `w`.
  ghost predicate AllResolved(d: Desired, w: World) {
    forall k :: 0 <= k < |Ethernets(d)| ==> Resolved(w.addresses, d.name, Ethernets(d)[k])
  }

  lemma {:induction false} ContentMeansResolved(d: Desired, m: Record, w: World, m': Record, w': World, out: Outcome)
    requires ClaimsStage(d, m, w, m', w', out)
    ensures out == Continue ==> AllResolved(d, w)
  {
  }

  lemma {:induction false} ClaimsPassed(lib: Lib, s: State, s': State)
    requires StageStep(lib, s, s')
    ensures s'.d == s.d && (s.pc == AtClaims && s'.out == Continue ==> AllResolved(s.d, s.w))
    ensures s.pc == AtClaims && s'.out != Continue ==> s'.pc == Finishing
  {
    match s.pc
    case AtClaims => ContentMeansResolved(s.d, s.mem, s.w, s'.mem, s'.w, s'.out);
    case _ =>
  }

  // A state past the claims stage comes from one, or from the stage itself.
  lemma {:induction false} OneBack(lib: Lib, run: seq<State>, i: nat)
    requires Run(lib, run) && i < |run| && Order(run[i].pc) > 3
    ensures i > 0 && run[i].d == run[i - 1].d
    ensures Order(run[i - 1].pc) > 3 || (run[i - 1].pc == AtClaims && AllResolved(run[i - 1].d, run[i - 1].w))
  {
    var s, s' := run[i - 1], run[i];
    StepOf(lib, run, i);
    if s.pc == AtClaims && StageStep(lib, s, s') {
      ClaimsPassed(lib, s, s');
    } else {
      StillPastClaims(lib, s, s');
    }
  }

  lemma {:induction false} ClaimsBefore(lib: Lib, run: seq<State>, i: nat) returns (j: nat)
    requires Run(lib, run) && i < |run| && Order(run[i].pc) > 3
    ensures SamePass(run, j, i) && run[j].pc == AtClaims && AllResolved(run[i].d, run[j].w)
  {
    OneBack(lib, run, i);
    if run[i - 1].pc == AtClaims {
      j := i - 1;
    } else {
      j := ClaimsBefore(lib, run, i - 1);
    }
  }

  lemma {:induction false} StillPastClaims(lib: Lib, s: State, s': State)
    requires Next(lib, s, s') && Order(s'.pc) > 3 && !(s.pc == AtClaims && StageStep(lib, s, s'))
    ensures Order(s.pc) > 3 && s'.d == s.d
  {
  }

  /**
   When the pass comes to power, the record shows the wanted hardware, adapters and folders and
   the bootstrap data as provided, and earlier in this same pass every pool reference was resolved.
   */
  lemma {:induction false} PowerOnSettled(lib: Lib, run: seq<State>, i: nat) returns (j: nat)
    requires Run(lib, run) && i < |run| && run[i].pc == AtPower
    ensures var d, m := run[i].d, run[i].mem;
            Sized(d, m) && AdaptersSettled(d, m) && SameFolders(d.folders, m.sharedFolders) && m.bootstrapped
    ensures SamePass(run, j, i) && run[j].pc == AtClaims
    ensures AllResolved(run[i].d, run[j].w)
  {
    j := ClaimsBefore(lib, run, i);
    RunMoves(lib, run);
    WatchedHolds(lib, run, i);
  }
}
