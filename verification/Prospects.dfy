/**
 From which states of a run convergence can start.  A machine that exists and is not being deleted
 fails to be where convergence starts for two reasons only: its VNC record is stuck, or its adapters
 are out of order, which an interrupted adapter pass is needed for.
 */
module Prospects {
  import opened Options
  import opened Api
  import opened Cloud
  import opened Lifecycle
  import opened Folders
  import opened Adapters
  import opened AdapterSlots
  import opened VncSettings
  import opened VncRounds
  import opened Metadata
  import opened Bootstrap
  import opened System
  import opened Frames
  import opened Moves
  import opened ProviderIds
  import opened FolderRuns
  import opened Progress
  import opened Convergence

  /******* What the record shows of adapters and addresses *******/

  // Adapters come from a list read from a VM; there are no addresses without readiness.
  ghost predicate Genuine(m: Record) {
    AllComplete(m.adapters.GetOr([])) && (m.addresses != [] ==> m.ready)
  }

  ghost predicate GenuineState(s: State) {
    Genuine(s.stored) && Persist(s.stored) == s.stored && (s.pc != Idle ==> Genuine(s.mem))
  }

  lemma {:induction false} AdaptersGenuine(d: Desired, id: string, m: Record, w: World, m': Record, w': World, out: Outcome)
    requires Genuine(m) && AdaptersStage(d, id, m, w, m', w', out)
    ensures Genuine(m')
  {
    AdaptersFrame(d, id, m, w, m', w', out);
    if m' != m {
      ListedIsComplete(m'.adapters.value, w.vms[id].config);
    }
  }

  // The stages but the one of the adapters leave the list alone.
  lemma {:induction false} SameAdapters(lib: Lib, s: State, s': State)
    requires StageStep(lib, s, s') && s.pc != AtAdapters
    ensures s'.mem.adapters == s.mem.adapters
  {
    match s.pc
    case AtHardware => HardwareFrame(s.d, s.mem.vmID.value, s.mem, s.w, s'.mem, s'.w, s'.out);
    case AtClaims => ClaimsFrame(s.d, s.mem, s.w, s'.mem, s'.w, s'.out);
    case AtFolders => FoldersFrame(s.d, s.mem.vmID.value, s.mem, s.w, s'.mem, s'.w, s'.out);
    case AtVnc => VncFrame(s.d, s.mem.vmID.value, s.mem, s.w, s'.mem, s'.w, s'.out);
    case AtBootstrap => BootFrame(lib, s.d, s.mem.vmID.value, s.mem, s.w, s'.mem, s'.w, s'.out);
    case AtAddresses => AddressesFrame(lib, s.d, s.mem.vmID.value, s.mem, s.w, s'.mem, s'.w, s'.out);
    case AtPower =>
      assert PowerStep(s, s');
      PowerFrame(s, s');
    case Creating =>
    case Deleting =>
      assert DeleteStep(s, s');
      DeletionFrame(s, s');
  }

  lemma {:induction false} GenuineByMove(lib: Lib, s: State, s': State)
    requires Genuine(s.mem) && (CalmStep(lib, s, s') || CreateStep(s, s') || Dismantled(s, s') || Switched(s, s'))
    requires s'.mem.adapters == s.mem.adapters
    ensures Genuine(s'.mem)
  {
  }

  lemma {:induction false} GenuineByStage(lib: Lib, s: State, s': State)
    requires GenuineState(s) && StageStep(lib, s, s')
    ensures GenuineState(s')
  {
    assert s.pc != Idle;
    if s.pc == AtAdapters {
      AdaptersGenuine(s.d, s.mem.vmID.value, s.mem, s.w, s'.mem, s'.w, s'.out);
    } else {
      SameAdapters(lib, s, s');
      StageMoves(lib, s, s');
      if s.pc == Deleting {
        assert DeleteStep(s, s');
        DeletionFrame(s, s');
      } else if s.pc == AtPower {
        assert PowerStep(s, s');
        PowerFrame(s, s');
      }
      GenuineByMove(lib, s, s');
    }
  }

  lemma {:induction false} GenuineBetweenStages(s: State, s': State)
    requires GenuineState(s)
    requires BeginStep(s, s') || RouteStep(s, s') || PatchStep(s, s') || LoseStep(s, s') || OthersStep(s, s')
    ensures GenuineState(s')
  {
  }

  lemma {:induction false} GenuinePatched(stored: Record, m: Record)
    requires Genuine(m)
    ensures Genuine(Patched(stored, m)) && Persist(Patched(stored, m)) == Patched(stored, m)
  {
  }

  lemma {:induction false} ProbeOnlyReads(s: State, s': State)
    requires ProbeStep(s, s')
    ensures s'.mem == s.mem.(state := s'.mem.state, vmID := s'.mem.vmID, providerID := s'.mem.providerID)
    ensures s'.stored == s.stored || s'.stored == Patched(s.stored, s'.mem)
  {
  }

  lemma {:induction false} GenuineByProbe(s: State, s': State)
    requires GenuineState(s) && ProbeStep(s, s')
    ensures GenuineState(s')
  {
    ProbeOnlyReads(s, s');
    assert s.pc == Probing;
    GenuinePatched(s.stored, s'.mem);
  }

  lemma {:induction false} GenuineAlong(lib: Lib, run: seq<State>, i: nat)
    requires Run(lib, run) && i < |run|
    ensures GenuineState(run[i])
  {
    if i > 0 {
      GenuineAlong(lib, run, i - 1);
      var s, s' := run[i - 1], run[i];
      StepOf(lib, run, i);
      if StageStep(lib, s, s') {
        GenuineByStage(lib, s, s');
      } else if ProbeStep(s, s') {
        GenuineByProbe(s, s');
      } else {
        GenuineBetweenStages(s, s');
      }
    }
  }

  /**
   Between passes of any run, a machine with a well-formed spec that is not being deleted and has no
   VM or an existing one is where convergence starts exactly if its VNC record is not stuck and its
   adapters are in order.
   */
  lemma {:induction false} ReachableHopeful(lib: Lib, run: seq<State>, i: nat)
    requires Run(lib, run) && i < |run|
    requires var s := run[i];
             && s.pc == Idle && s.alive && !s.stored.deleting && WellFormed(s.d)
             && (s.stored.vnc.Some? ==> NoEmptyText(s.stored.vnc.value))
             && (s.stored.vmID.Some? ==> s.stored.vmID.value in s.w.vms)
    ensures var s := run[i];
            Hopeful(s) <==> !Stuck(s.stored) && (s.stored.vmID.Some? ==> NicsInOrder(s.d, s.w.vms[s.stored.vmID.value]))
  {
    GenuineAlong(lib, run, i);
    ProviderIdNamesVM(lib, run, i);
  }

  /******* Adapters out of order *******/

  // The adapters of every VM that the record or the pass names are in order.
  ghost predicate InOrder(s: State) {
    forall id :: Named(s, id) && id in s.w.vms ==> NicsInOrder(s.d, s.w.vms[id])
  }

  ghost predicate NicsKept(w: World, w': World) {
    forall id :: id in w.vms && id in w'.vms ==> SameNicKeys(w.vms[id].config, w'.vms[id].config)
  }

  lemma {:induction false} WritesKeepNics(w: World, w': World, id: string, params: map<Key, string>)
    requires WroteSome(w, w', id, params) && forall key :: key in params ==> !key.EthernetKey?
    ensures NicsKept(w, w') && w'.vms.Keys == w.vms.Keys
  {
    if id in w.vms {
      NotNicKeys(w.vms[id].config, Only(params, KeysSince(w'.log, |w.log|)));
    }
  }

  lemma {:induction false} VncKeepsNics(d: Desired, id: string, m: Record, w: World, m': Record, w': World, out: Outcome)
    requires VncStage(d, id, m, w, m', w', out)
    ensures NicsKept(w, w') && w'.vms.Keys == w.vms.Keys
  {
    if m.vnc.Some? && w' != w {
      ParamsOfVnc(m'.vnc.value);
      WritesKeepNics(w, w', id, VncParams(m'.vnc.value));
    }
  }

  lemma {:induction false} BootKeepsNics(lib: Lib, d: Desired, id: string, m: Record, w: World, m': Record, w': World, out: Outcome)
    requires BootstrapStage(lib, d, id, m, w, m', w', out)
    ensures NicsKept(w, w') && w'.vms.Keys == w.vms.Keys
  {
    if w' != w {
      var doc :| WroteSome(w, w', id, BootParams(lib, w.secret.value, m.providerID.value, doc));
      BootWritesKeepNics(lib, id, m.providerID.value, w, w', doc);
    }
  }

  lemma {:induction false} BootWritesKeepNics(lib: Lib, id: string, providerID: string, w: World, w': World, doc: Document)
    requires w.secret.Some? && WroteSome(w, w', id, BootParams(lib, w.secret.value, providerID, doc))
    ensures NicsKept(w, w') && w'.vms.Keys == w.vms.Keys
  {
    WritesKeepNics(w, w', id, BootParams(lib, w.secret.value, providerID, doc));
  }

  lemma {:induction false} DeletionKeepsNics(m: Record, w: World, m': Record, w': World, out: Outcome)
    requires DeleteStage(m, w, m', w', out)
    ensures NicsKept(w, w') && w'.vms.Keys <= w.vms.Keys
  {
  }

  lemma {:induction false} PowerKeepsNics(id: string, m: Record, w: World, m': Record, w': World, out: Outcome)
    requires PowerStage(id, m, w, m', w', out)
    ensures NicsKept(w, w') && w'.vms.Keys == w.vms.Keys
  {
  }

  lemma {:induction false} HardwareKeepsNics(d: Desired, id: string, m: Record, w: World, m': Record, w': World, out: Outcome)
    requires HardwareStage(d, id, m, w, m', w', out)
    ensures NicsKept(w, w') && w'.vms.Keys == w.vms.Keys
  {
  }

  lemma {:induction false} FoldersKeepNics(d: Desired, id: string, m: Record, w: World, m': Record, w': World, out: Outcome)
    requires FoldersStage(d, id, m, w, m', w', out)
    ensures NicsKept(w, w') && w'.vms.Keys == w.vms.Keys
  {
  }

  lemma {:induction false} StageKeepsNics(lib: Lib, s: State, s': State)
    requires StageStep(lib, s, s') && s.pc != AtAdapters && s.pc != Creating
    ensures NicsKept(s.w, s'.w) && s'.w.vms.Keys <= s.w.vms.Keys
  {
    match s.pc
    case Deleting => DeletionKeepsNics(s.mem, s.w, s'.mem, s'.w, s'.out);
    case AtPower => PowerKeepsNics(s.mem.vmID.value, s.mem, s.w, s'.mem, s'.w, s'.out);
    case AtHardware => HardwareKeepsNics(s.d, s.mem.vmID.value, s.mem, s.w, s'.mem, s'.w, s'.out);
    case AtFolders => FoldersKeepNics(s.d, s.mem.vmID.value, s.mem, s.w, s'.mem, s'.w, s'.out);
    case AtVnc => VncKeepsNics(s.d, s.mem.vmID.value, s.mem, s.w, s'.mem, s'.w, s'.out);
    case AtBootstrap => BootKeepsNics(lib, s.d, s.mem.vmID.value, s.mem, s.w, s'.mem, s'.w, s'.out);
    case _ =>
  }

  lemma {:induction false} OrderKept(s: State, s': State)
    requires InOrder(s) && NicsKept(s.w, s'.w) && s'.w.vms.Keys <= s.w.vms.Keys && s'.d == s.d
    requires forall id :: Named(s', id) ==> Named(s, id)
    ensures InOrder(s')
  {
    forall id | Named(s', id) && id in s'.w.vms
      ensures NicsInOrder(s'.d, s'.w.vms[id])
    {
      SameNics(s.d, s.mem, s.w.vms[id], s'.w.vms[id]);
    }
  }

  // A failed pass of the stage that let the "present" of some adapter through.
  ghost predicate Announces(log: seq<Event>, n: nat) {
    exists i :: n <= i < |log| && log[i].Configured? && log[i].key.EthernetKey? && log[i].key.field == Present
  }

  lemma {:induction false} CutShortInOrder(config: map<Key, string>, list: seq<NetAdapter>, spec: seq<NetAdapter>, log: seq<Event>, n: nat)
    requires ListsNics(list, config) && Contiguous(config) && !Announces(log, n)
    ensures Contiguous(CutShort(config, list, spec, KeysSince(log, n)))
  {
    var params := MissingParams(list, spec, |list|, |spec|);
    forall slot: nat
      ensures slot !in Announced(params, KeysSince(log, n))
    {
      AnnouncedAt(params, KeysSince(log, n), slot);
      KeysSinceMeans(log, n, EthernetKey(slot, Present));
    }
    SlotsCutShort(config, list, spec, KeysSince(log, n));
  }

  lemma {:induction false} WriteKeepsOrder(d: Desired, id: string, list: seq<NetAdapter>, spec: seq<NetAdapter>, w: World, w': World, out: Outcome)
    requires WantedAdapters(d) == Some(spec) && AllComplete(spec) && id in w.vms
    requires ListsNics(list, w.vms[id].config) && Contiguous(w.vms[id].config) && AdapterWrites(id, list, spec, w, w', out)
    ensures id in w'.vms && (NicsInOrder(d, w'.vms[id]) || (out == Error && Announces(w'.log, |w.log|)))
  {
    var config := w.vms[id].config;
    match out
    case Requeue =>
      AllHeldAfter(config, list, spec);
      ConfigAfter(w, w', id, MissingParams(list, spec, |list|, |spec|));
    case Error =>
      if !Announces(w'.log, |w.log|) {
        CutShortInOrder(config, list, spec, w'.log, |w.log|);
        assert w'.vms[id].config == CutShort(config, list, spec, KeysSince(w'.log, |w.log|));
      }
    case Panic =>
      ListedIsComplete(list, config);
      var i :| 0 <= i < |spec| && Troubled(list, spec[i]);
      TroubledMeans(list, spec[i]);
    case Continue =>
  }

  lemma {:induction false} AdaptersKeepOrder(d: Desired, id: string, m: Record, w: World, m': Record, w': World, out: Outcome)
    requires WellFormed(d) && Genuine(m) && AdaptersStage(d, id, m, w, m', w', out)
    requires id in w.vms ==> NicsInOrder(d, w.vms[id])
    ensures id in w'.vms ==> NicsInOrder(d, w'.vms[id]) || (out == Error && Announces(w'.log, |w.log|))
  {
    if w' != w {
      var spec := WantedAdapters(d).value;
      if AllHeld(w.vms[id].config, spec) {
        RefreshesOnly(d, id, m, w, m', w', out);
      } else {
        WriteKeepsOrder(d, id, m'.adapters.value, spec, w, w', out);
      }
    }
  }

  // The adapter stage fails after it let a "present" through.
  ghost predicate Interrupted(lib: Lib, s: State, s': State) {
    s.pc == AtAdapters && StageStep(lib, s, s') && s'.out == Error && Announces(s'.w.log, |s.w.log|)
  }

  lemma {:induction false} OrderByAdapters(lib: Lib, s: State, s': State)
    requires InOrder(s) && GenuineState(s) && WellFormed(s.d) && s.pc == AtAdapters && StageStep(lib, s, s')
    ensures InOrder(s') || Interrupted(lib, s, s')
  {
    var own := s.mem.vmID.value;
    AdaptersKeepOrder(s.d, own, s.mem, s.w, s'.mem, s'.w, s'.out);
    AdaptersFrame(s.d, own, s.mem, s.w, s'.mem, s'.w, s'.out);
    if !Interrupted(lib, s, s') {
      OrderOfOthers(s, s', own);
    }
  }

  lemma {:induction false} OrderOfOthers(s: State, s': State, own: string)
    requires InOrder(s) && Tended(s.w, s'.w, own) && s'.d == s.d && s'.stored == s.stored && s'.mem.vmID == s.mem.vmID
    requires s.pc != Idle && (own in s'.w.vms ==> NicsInOrder(s'.d, s'.w.vms[own]))
    ensures InOrder(s')
  {
    forall id | Named(s', id) && id in s'.w.vms
      ensures NicsInOrder(s'.d, s'.w.vms[id])
    {
      assert Named(s, id) && id in s.w.vms;
    }
  }

  lemma {:induction false} OrderByCreation(lib: Lib, s: State, s': State)
    requires InOrder(s) && s.pc == Creating && StageStep(lib, s, s')
    ensures InOrder(s')
  {
  }

  lemma {:induction false} NamedByStage(lib: Lib, s: State, s': State, id: string)
    requires StageStep(lib, s, s') && s.pc != Creating && Named(s', id)
    ensures Named(s, id)
  {
    StageMoves(lib, s, s');
    if s.pc == Deleting {
      assert DeleteStep(s, s');
      RestByLifecycle(s, s', id);
    } else if s.pc == AtPower {
      assert PowerStep(s, s');
      RestByLifecycle(s, s', id);
    }
  }

  lemma {:induction false} OrderByStage(lib: Lib, s: State, s': State)
    requires InOrder(s) && GenuineState(s) && WellFormed(s.d) && StageStep(lib, s, s')
    ensures InOrder(s') || Interrupted(lib, s, s')
  {
    if s.pc == AtAdapters {
      OrderByAdapters(lib, s, s');
    } else if s.pc == Creating {
      OrderByCreation(lib, s, s');
    } else {
      StageKeepsNics(lib, s, s');
      forall id | Named(s', id)
        ensures Named(s, id)
      {
        NamedByStage(lib, s, s', id);
      }
      OrderKept(s, s');
    }
  }

  // Others leave the spec and the configurations of the machine's VMs alone.
  ghost predicate NicsLeftAlone(s: State, s': State) {
    && s'.d == s.d
    && forall id :: Named(s, id) && id in s'.w.vms ==> id in s.w.vms && s'.w.vms[id].config == s.w.vms[id].config
  }

  ghost predicate NicsUndisturbed(run: seq<State>) {
    forall i :: 0 <= i < |run| - 1 && OthersStep(run[i], run[i + 1]) ==> NicsLeftAlone(run[i], run[i + 1])
  }

  lemma {:induction false} OrderByOthers(s: State, s': State)
    requires InOrder(s) && OthersStep(s, s') && NicsLeftAlone(s, s')
    ensures InOrder(s')
  {
    forall id | Named(s', id) && id in s'.w.vms
      ensures NicsInOrder(s'.d, s'.w.vms[id])
    {
      SameNics(s.d, s.mem, s.w.vms[id], s'.w.vms[id]);
    }
  }

  lemma {:induction false} OrderBetweenStages(s: State, s': State)
    requires InOrder(s)
    requires BeginStep(s, s') || ProbeStep(s, s') || RouteStep(s, s') || PatchStep(s, s') || LoseStep(s, s')
    ensures InOrder(s') && s'.d == s.d
  {
    assert s'.w == s.w && s'.d == s.d;
    forall id | Named(s', id)
      ensures Named(s, id)
    {
      RestBetweenStages(s, s', id);
    }
  }

  lemma {:induction false} OrderNext(lib: Lib, s: State, s': State)
    requires InOrder(s) && GenuineState(s) && WellFormed(s.d) && Next(lib, s, s')
    requires OthersStep(s, s') ==> NicsLeftAlone(s, s')
    ensures s'.d == s.d && (InOrder(s') || Interrupted(lib, s, s'))
  {
    if StageStep(lib, s, s') {
      OrderByStage(lib, s, s');
    } else if OthersStep(s, s') {
      OrderByOthers(s, s');
    } else {
      OrderBetweenStages(s, s');
    }
  }

  ghost predicate InterruptedBefore(lib: Lib, run: seq<State>, i: nat) {
    exists k: nat :: InterruptedAt(lib, run, k, i)
  }

  ghost predicate InterruptedAt(lib: Lib, run: seq<State>, k: nat, i: nat) {
    k < i < |run| && Interrupted(lib, run[k], run[k + 1])
  }

  lemma {:induction false} OrderAt(lib: Lib, run: seq<State>, i: nat)
    requires Run(lib, run) && NicsUndisturbed(run) && 0 < i < |run| && WellFormed(run[i - 1].d) && InOrder(run[i - 1])
    ensures run[i].d == run[i - 1].d && (InOrder(run[i]) || InterruptedAt(lib, run, i - 1, i))
  {
    GenuineAlong(lib, run, i - 1);
    var s, s' := run[i - 1], run[i];
    StepOf(lib, run, i);
    OrderNext(lib, s, s');
  }

  /**
   With a well-formed spec that nobody edits, and configurations nobody else touches: on every run the
   adapters of the machine's VM are in order, unless an adapter pass failed after a "present" of its
   had got through.
   */
  lemma {:induction false} InOrderUnlessInterrupted(lib: Lib, run: seq<State>, i: nat)
    requires Run(lib, run) && NicsUndisturbed(run) && WellFormed(run[0].d) && i < |run|
    ensures (InOrder(run[i]) && run[i].d == run[0].d) || InterruptedBefore(lib, run, i)
  {
    if i > 0 {
      InOrderUnlessInterrupted(lib, run, i - 1);
      var j := i - 1;
      if k: nat :| InterruptedAt(lib, run, k, j) {
        assert InterruptedAt(lib, run, k, i);
      } else {
        OrderAt(lib, run, i);
      }
    }
  }

  /** So between passes convergence can start, unless the record is stuck or an adapter pass was interrupted that way. */
  lemma {:induction false} HopefulUnlessInterrupted(lib: Lib, run: seq<State>, i: nat)
    requires Run(lib, run) && NicsUndisturbed(run) && WellFormed(run[0].d) && i < |run|
    requires var s := run[i];
             && s.pc == Idle && s.alive && !s.stored.deleting
             && (s.stored.vnc.Some? ==> NoEmptyText(s.stored.vnc.value))
             && (s.stored.vmID.Some? ==> s.stored.vmID.value in s.w.vms)
    ensures Hopeful(run[i]) || Stuck(run[i].stored) || InterruptedBefore(lib, run, i)
  {
    InOrderUnlessInterrupted(lib, run, i);
    if !InterruptedBefore(lib, run, i) {
      ReachableHopeful(lib, run, i);
    }
  }
}
