/** Over whole runs: what is generated and stored, what is written, and which records the VNC stage dies of. */
module VncRuns {
  import opened Options
  import opened Api
  import opened Cloud
  import opened VncRounds
  import opened Bootstrap
  import opened System
  import opened Frames
  import opened Moves

  ghost predicate VncTracked(s: State) {
    s.pc != Idle ==> OnlyGenerated(s.stored.vnc, s.mem.vnc)
  }

  lemma {:induction false} OnlyGeneratedSame(vnc: Option<Vnc>)
    ensures OnlyGenerated(vnc, vnc)
  {
  }

  lemma {:induction false} VncByCalm(lib: Lib, s: State, s': State)
    requires VncTracked(s) && CalmStep(lib, s, s')
    ensures VncTracked(s') && s'.stored == s.stored
  {
    if s'.mem.vnc != s.mem.vnc {
      OnlyGeneratedTwice(s.stored.vnc, s.mem.vnc, s'.mem.vnc);
    }
  }

  lemma {:induction false} VncByPlumbing(s: State, s': State)
    requires VncTracked(s)
    requires BeginStep(s, s') || RouteStep(s, s') || PatchStep(s, s') || LoseStep(s, s')
      || (OthersStep(s, s') && s'.stored.vnc == s.stored.vnc)
    ensures VncTracked(s') && OnlyGenerated(s.stored.vnc, s'.stored.vnc)
  {
    OnlyGeneratedSame(s.stored.vnc);
  }

  lemma {:induction false} ProbeKeepsVnc(s: State, s': State)
    requires ProbeStep(s, s')
    ensures s'.mem.vnc == s.mem.vnc && (s'.stored.vnc == s.stored.vnc || s'.stored.vnc == s.mem.vnc)
  {
  }

  lemma {:induction false} VncByProbe(s: State, s': State)
    requires VncTracked(s) && ProbeStep(s, s')
    ensures VncTracked(s') && OnlyGenerated(s.stored.vnc, s'.stored.vnc)
  {
    ProbeKeepsVnc(s, s');
    OnlyGeneratedSame(s.stored.vnc);
    OnlyGeneratedSame(s.mem.vnc);
  }

  lemma {:induction false} VncByLifecycle(s: State, s': State)
    requires VncTracked(s) && (CreateStep(s, s') || Dismantled(s, s') || Switched(s, s'))
    ensures VncTracked(s') && s'.stored == s.stored
  {
  }

  // The user does not edit the VNC settings.
  ghost predicate VncUnedited(run: seq<State>) {
    forall i :: 0 <= i < |run| - 1 && OthersStep(run[i], run[i + 1]) ==> run[i + 1].stored.vnc == run[i].stored.vnc
  }

  lemma {:induction false} VncNext(lib: Lib, s: State, s': State)
    requires VncTracked(s) && Move(lib, s, s') && (OthersStep(s, s') ==> s'.stored.vnc == s.stored.vnc)
    ensures VncTracked(s') && OnlyGenerated(s.stored.vnc, s'.stored.vnc)
  {
    if CalmStep(lib, s, s') {
      VncByCalm(lib, s, s');
    } else if ProbeStep(s, s') {
      VncByProbe(s, s');
    } else if CreateStep(s, s') || DeleteStep(s, s') || PowerStep(s, s') {
      if DeleteStep(s, s') {
        DeletionFrame(s, s');
      } else if PowerStep(s, s') {
        PowerFrame(s, s');
      }
      VncByLifecycle(s, s');
    } else {
      VncByPlumbing(s, s');
    }
    OnlyGeneratedSame(s.stored.vnc);
  }

  lemma {:induction false} VncAt(lib: Lib, run: seq<State>, j: nat)
    requires Moving(lib, run) && VncUnedited(run) && 0 < j < |run| && VncTracked(run[j - 1])
    ensures VncTracked(run[j]) && OnlyGenerated(run[j - 1].stored.vnc, run[j].stored.vnc)
  {
    var s, s' := run[j - 1], run[j];
    MoveOf(lib, run, j);
    VncNext(lib, s, s');
  }

  lemma {:induction false} VncAlong(lib: Lib, run: seq<State>, j: nat)
    requires Moving(lib, run) && VncUnedited(run) && j < |run|
    ensures VncTracked(run[j])
  {
    if j > 0 {
      VncAlong(lib, run, j - 1);
      VncAt(lib, run, j);
    }
  }

  /**
   On every run in which the user leaves the settings alone: between any two states the stored
   settings differ at most in a port and a password generated where none was set.  So each is stored
   at most once and stays, and a generated port lies in 5900..5999.
   */
  lemma {:induction false} StoredOnce(lib: Lib, run: seq<State>, i: nat, j: nat)
    requires Run(lib, run) && VncUnedited(run) && i <= j < |run|
    ensures OnlyGenerated(run[i].stored.vnc, run[j].stored.vnc)
  {
    RunMoves(lib, run);
    StoredOnceAlong(lib, run, i, j);
  }

  lemma {:induction false} StoredOnceAlong(lib: Lib, run: seq<State>, i: nat, j: nat)
    requires Moving(lib, run) && VncUnedited(run) && i <= j < |run|
    ensures OnlyGenerated(run[i].stored.vnc, run[j].stored.vnc)
  {
    if i == j {
      OnlyGeneratedSame(run[i].stored.vnc);
    } else {
      StoredOnceAlong(lib, run, i, j - 1);
      VncAlong(lib, run, j - 1);
      VncAt(lib, run, j);
      OnlyGeneratedTwice(run[i].stored.vnc, run[j - 1].stored.vnc, run[j].stored.vnc);
    }
  }

  /******* Records the VNC stage dies of *******/

  // Up to its VNC stage a pass works on the stored settings, and with a stuck record it gets no further.
  ghost predicate VncInStep(s: State) {
    && (s.pc != Idle && ((s.pc != Finishing && Order(s.pc) <= 5) || Stuck(s.stored)) ==>
          s.mem.vnc == s.stored.vnc && s.mem.vncStatus == s.stored.vncStatus)
    && (Stuck(s.stored) ==> Order(s.pc) <= 5)
  }

  lemma {:induction false} VncStageTold(lib: Lib, s: State, s': State)
    requires s.pc == AtVnc && StageStep(lib, s, s')
    ensures s.mem.vmID.Some? && s'.stored == s.stored && (s'.pc == AtBootstrap || s'.pc == Finishing)
    ensures Stuck(s.mem) ==> s'.out == Panic && s'.pc == Finishing && s'.mem == s.mem && s'.w == s.w
    ensures !Stuck(s.mem) ==> (Stuck(s'.mem) <==> Sticks(s.mem.vmID.value, s.mem, s.w, s'.out))
  {
    VncPanicsExactly(s.d, s.mem.vmID.value, s.mem, s.w, s'.mem, s'.w, s'.out);
    if !Stuck(s.mem) {
      VncSticksExactly(s.d, s.mem.vmID.value, s.mem, s.w, s'.mem, s'.w, s'.out);
    }
  }

  // What a step outside the VNC stage does to the settings.
  ghost predicate VncCarried(s: State, s': State) {
    && VncInStep(s')
    && (s'.pc != Idle && s.pc != Idle ==> s'.mem.vnc == s.mem.vnc && s'.mem.vncStatus == s.mem.vncStatus)
    && (s'.pc != Idle && s.pc == Idle ==> s'.mem == s.stored)
    && (Stuck(s'.stored) ==> Stuck(s.stored) || (PatchStep(s, s') && Stuck(s.mem)) || OthersStep(s, s'))
  }

  lemma {:induction false} CarriedByCalm(lib: Lib, s: State, s': State)
    requires VncInStep(s) && CalmStep(lib, s, s') && s.pc != AtVnc
    ensures VncCarried(s, s')
  {
  }

  lemma {:induction false} CarriedByCreation(s: State, s': State)
    requires VncInStep(s) && CreateStep(s, s')
    ensures VncCarried(s, s')
  {
  }

  lemma {:induction false} CarriedByLifecycle(s: State, s': State)
    requires VncInStep(s) && (Dismantled(s, s') || Switched(s, s'))
    ensures VncCarried(s, s')
  {
  }

  lemma {:induction false} CarriedByProbe(s: State, s': State)
    requires VncInStep(s) && ProbeStep(s, s')
    ensures VncCarried(s, s')
  {
    ProbeCopiesVnc(s, s');
    CarriedProbed(s, s');
  }

  lemma {:induction false} ProbeCopiesVnc(s: State, s': State)
    requires VncInStep(s) && ProbeStep(s, s')
    ensures s'.mem.vnc == s.mem.vnc && s'.mem.vncStatus == s.mem.vncStatus
    ensures s'.stored.vnc == s.stored.vnc && s'.stored.vncStatus == s.stored.vncStatus
    ensures s.pc == Probing && (s'.pc == Routing || s'.pc == Finishing)
  {
    ProbeKeepsVnc(s, s');
    ProbeKeepsStatus(s, s');
  }

  lemma {:induction false} ProbeKeepsStatus(s: State, s': State)
    requires ProbeStep(s, s')
    ensures s'.mem.vncStatus == s.mem.vncStatus
    ensures s'.stored.vncStatus == s.stored.vncStatus || s'.stored.vncStatus == s.mem.vncStatus
  {
  }

  lemma {:induction false} CarriedProbed(s: State, s': State)
    requires VncInStep(s) && s.pc == Probing && (s'.pc == Routing || s'.pc == Finishing)
    requires s'.mem.vnc == s.mem.vnc && s'.mem.vncStatus == s.mem.vncStatus
    requires s'.stored.vnc == s.stored.vnc && s'.stored.vncStatus == s.stored.vncStatus
    ensures VncCarried(s, s')
  {
  }

  lemma {:induction false} CarriedBetweenStages(s: State, s': State)
    requires VncInStep(s)
    requires BeginStep(s, s') || RouteStep(s, s') || PatchStep(s, s') || LoseStep(s, s') || OthersStep(s, s')
    ensures VncCarried(s, s')
  {
  }

  lemma {:induction false} CarriedByMove(lib: Lib, s: State, s': State)
    requires VncInStep(s) && Move(lib, s, s') && s.pc != AtVnc
    ensures VncCarried(s, s')
  {
    if CalmStep(lib, s, s') {
      CarriedByCalm(lib, s, s');
    } else if CreateStep(s, s') {
      CarriedByCreation(s, s');
    } else if DeleteStep(s, s') {
      DeletionFrame(s, s');
      CarriedByLifecycle(s, s');
    } else if PowerStep(s, s') {
      PowerFrame(s, s');
      CarriedByLifecycle(s, s');
    } else if ProbeStep(s, s') {
      CarriedByProbe(s, s');
    } else {
      CarriedBetweenStages(s, s');
    }
  }

  lemma {:induction false} VncCarriedBy(lib: Lib, s: State, s': State)
    requires VncInStep(s) && Next(lib, s, s') && (s.pc == AtVnc ==> !StageStep(lib, s, s'))
    ensures VncCarried(s, s')
  {
    if s.pc == AtVnc {
      CarriedBetweenStages(s, s');
    } else {
      NextMoves(lib, s, s');
      CarriedByMove(lib, s, s');
    }
  }

  lemma {:induction false} InStepTold(s: State, s': State)
    requires VncInStep(s) && s.pc == AtVnc && s'.stored == s.stored && (s'.pc == AtBootstrap || s'.pc == Finishing)
    requires Stuck(s.mem) ==> s'.pc == Finishing && s'.mem == s.mem
    ensures VncInStep(s')
  {
  }

  lemma {:induction false} InStepByStage(lib: Lib, s: State, s': State)
    requires VncInStep(s) && s.pc == AtVnc && StageStep(lib, s, s')
    ensures VncInStep(s')
  {
    VncStageTold(lib, s, s');
    InStepTold(s, s');
  }

  lemma {:induction false} InStepNext(lib: Lib, s: State, s': State)
    requires VncInStep(s) && Next(lib, s, s')
    ensures VncInStep(s')
  {
    if s.pc == AtVnc && StageStep(lib, s, s') {
      InStepByStage(lib, s, s');
    } else {
      VncCarriedBy(lib, s, s');
    }
  }

  lemma {:induction false} InStepAlong(lib: Lib, run: seq<State>, i: nat)
    requires Run(lib, run) && i < |run|
    ensures VncInStep(run[i])
  {
    if i > 0 {
      InStepAlong(lib, run, i - 1);
      StepOf(lib, run, i);
      InStepNext(lib, run[i - 1], run[i]);
    }
  }

  // At the k-th step a VNC stage made its record stuck, for one of the reasons known before it.
  ghost predicate SticksAt(lib: Lib, run: seq<State>, k: nat) {
    && k + 1 < |run| && run[k].pc == AtVnc && run[k].mem.vmID.Some? && StageStep(lib, run[k], run[k + 1])
    && !Stuck(run[k].mem) && Sticks(run[k].mem.vmID.value, run[k].mem, run[k].w, run[k + 1].out)
  }

  // The pass of the k-th step is still under way.
  ghost predicate Underway(run: seq<State>, k: nat, q: nat) {
    k < q < |run| && forall j :: k < j <= q ==> run[j].pc != Idle
  }

  ghost predicate StuckByPass(lib: Lib, run: seq<State>, k: nat, p: nat, i: nat) {
    SticksAt(lib, run, k) && Underway(run, k, p) && p < i < |run| && PatchStep(run[p], run[p + 1])
  }

  ghost predicate StuckByEdit(run: seq<State>, k: nat, i: nat) {
    k < i < |run| && OthersStep(run[k], run[k + 1]) && !Stuck(run[k].stored) && Stuck(run[k + 1].stored)
  }

  ghost predicate StuckForCause(lib: Lib, run: seq<State>, i: nat) {
    (exists k: nat, p: nat :: StuckByPass(lib, run, k, p, i)) || (exists k: nat :: StuckByEdit(run, k, i))
  }

  lemma {:induction false} CauseStays(lib: Lib, run: seq<State>, i: nat)
    requires i + 1 < |run| && StuckForCause(lib, run, i)
    ensures StuckForCause(lib, run, i + 1)
  {
    if k, p :| StuckByPass(lib, run, k, p, i) {
      assert StuckByPass(lib, run, k, p, i + 1);
    } else {
      var k :| StuckByEdit(run, k, i);
      assert StuckByEdit(run, k, i + 1);
    }
  }

  // The record of the pass under way was made stuck by it, or came so from the API server.
  ghost predicate PendingCause(lib: Lib, run: seq<State>, i: nat) {
    StuckForCause(lib, run, i) || exists k: nat :: SticksAt(lib, run, k) && Underway(run, k, i)
  }

  ghost predicate CausesKnown(lib: Lib, run: seq<State>, i: nat)
    requires i < |run|
  {
    && (Stuck(run[i].stored) ==> StuckForCause(lib, run, i))
    && (run[i].pc != Idle && Stuck(run[i].mem) ==> PendingCause(lib, run, i))
  }

  lemma {:induction false} PendingStays(lib: Lib, run: seq<State>, i: nat)
    requires i + 1 < |run| && PendingCause(lib, run, i) && run[i + 1].pc != Idle
    ensures PendingCause(lib, run, i + 1)
  {
    if StuckForCause(lib, run, i) {
      CauseStays(lib, run, i);
    } else {
      var k :| SticksAt(lib, run, k) && Underway(run, k, i);
      assert Underway(run, k, i + 1);
    }
  }

  lemma {:induction false} PendingStored(lib: Lib, run: seq<State>, i: nat)
    requires i + 1 < |run| && PendingCause(lib, run, i) && PatchStep(run[i], run[i + 1])
    ensures StuckForCause(lib, run, i + 1)
  {
    if StuckForCause(lib, run, i) {
      CauseStays(lib, run, i);
    } else {
      var k :| SticksAt(lib, run, k) && Underway(run, k, i);
      assert StuckByPass(lib, run, k, i, i + 1);
    }
  }

  lemma {:induction false} CausesByStage(lib: Lib, run: seq<State>, i: nat)
    requires i + 1 < |run| && CausesKnown(lib, run, i)
    requires run[i].pc == AtVnc && StageStep(lib, run[i], run[i + 1])
    ensures CausesKnown(lib, run, i + 1)
  {
    VncStageTold(lib, run[i], run[i + 1]);
    if Stuck(run[i].stored) {
      CauseStays(lib, run, i);
    }
    if Stuck(run[i].mem) {
      PendingStays(lib, run, i);
    } else if Stuck(run[i + 1].mem) {
      assert SticksAt(lib, run, i) && Underway(run, i, i + 1);
    }
  }

  lemma {:induction false} CausesCarried(lib: Lib, run: seq<State>, i: nat)
    requires i + 1 < |run| && CausesKnown(lib, run, i) && VncCarried(run[i], run[i + 1])
    ensures CausesKnown(lib, run, i + 1)
  {
    if Stuck(run[i].stored) {
      CauseStays(lib, run, i);
    } else if Stuck(run[i + 1].stored) {
      if PatchStep(run[i], run[i + 1]) && Stuck(run[i].mem) {
        PendingStored(lib, run, i);
      } else {
        assert StuckByEdit(run, i, i + 1);
      }
    }
    if run[i + 1].pc != Idle && run[i].pc != Idle && Stuck(run[i].mem) {
      PendingStays(lib, run, i);
    }
  }

  lemma {:induction false} CausesNext(lib: Lib, run: seq<State>, i: nat)
    requires i + 1 < |run| && VncInStep(run[i]) && CausesKnown(lib, run, i) && Next(lib, run[i], run[i + 1])
    ensures CausesKnown(lib, run, i + 1)
  {
    if run[i].pc == AtVnc && StageStep(lib, run[i], run[i + 1]) {
      CausesByStage(lib, run, i);
    } else {
      VncCarriedBy(lib, run[i], run[i + 1]);
      CausesCarried(lib, run, i);
    }
  }

  lemma {:induction false} CausesAlong(lib: Lib, run: seq<State>, i: nat)
    requires Run(lib, run) && i < |run|
    ensures CausesKnown(lib, run, i)
  {
    if i > 0 {
      CausesAlong(lib, run, i - 1);
      InStepAlong(lib, run, i - 1);
      StepOf(lib, run, i);
      CausesNext(lib, run, i - 1);
    }
  }

  /**
   On every run, edits included: a stored record is stuck only if an earlier pass made it so in one
   of the three ways of `Sticks` and stored it, or an edit set what the status does not have.
   */
  lemma {:induction false} StuckHasCause(lib: Lib, run: seq<State>, i: nat)
    requires Run(lib, run) && i < |run| && Stuck(run[i].stored)
    ensures (exists k: nat, p: nat :: StuckByPass(lib, run, k, p, i)) || (exists k: nat :: StuckByEdit(run, k, i))
  {
    CausesAlong(lib, run, i);
  }

  ghost predicate VncUneditedFrom(run: seq<State>, i: nat) {
    forall k :: i <= k < |run| - 1 && OthersStep(run[k], run[k + 1]) ==> run[k + 1].stored.vnc == run[k].stored.vnc
  }

  lemma {:induction false} StuckNext(lib: Lib, s: State, s': State)
    requires Next(lib, s, s') && VncInStep(s) && Stuck(s.stored) && (OthersStep(s, s') ==> s'.stored.vnc == s.stored.vnc)
    ensures s'.stored.vnc == s.stored.vnc && s'.stored.vncStatus == s.stored.vncStatus
  {
    if StageStep(lib, s, s') {
    } else if ProbeStep(s, s') {
      ProbeKeepsVnc(s, s');
    }
  }

  lemma {:induction false} StuckAt(lib: Lib, run: seq<State>, j: nat)
    requires Run(lib, run) && 0 < j < |run| && Stuck(run[j - 1].stored)
    requires OthersStep(run[j - 1], run[j]) ==> run[j].stored.vnc == run[j - 1].stored.vnc
    ensures run[j].stored.vnc == run[j - 1].stored.vnc && run[j].stored.vncStatus == run[j - 1].stored.vncStatus
  {
    InStepAlong(lib, run, j - 1);
    StepOf(lib, run, j);
    StuckNext(lib, run[j - 1], run[j]);
  }

  lemma {:induction false} StuckAlong(lib: Lib, run: seq<State>, i: nat, j: nat)
    requires Run(lib, run) && i <= j < |run| && Stuck(run[i].stored) && VncUneditedFrom(run, i)
    ensures run[j].stored.vnc == run[i].stored.vnc && run[j].stored.vncStatus == run[i].stored.vncStatus
  {
    if i < j {
      StuckAlong(lib, run, i, j - 1);
      StuckAt(lib, run, j);
    }
  }

  lemma {:induction false} StuckStageDies(lib: Lib, s: State, s': State)
    requires VncInStep(s) && Stuck(s.stored) && s.pc == AtVnc && StageStep(lib, s, s')
    ensures s'.out == Panic && s'.pc == Finishing && s'.w == s.w
  {
    VncStageTold(lib, s, s');
  }

  /**
   Until the user edits the settings a stuck record stays so: the stored settings and their status
   never change, and no pass gets beyond the VNC stage, which dies each time it is reached.
   */
  lemma {:induction false} StuckForGood(lib: Lib, run: seq<State>, i: nat, j: nat)
    requires Run(lib, run) && i <= j < |run| && Stuck(run[i].stored) && VncUneditedFrom(run, i)
    ensures run[j].stored.vnc == run[i].stored.vnc && run[j].stored.vncStatus == run[i].stored.vncStatus
    ensures Order(run[j].pc) <= 5
    ensures forall s' :: run[j].pc == AtVnc && StageStep(lib, run[j], s') ==> s'.out == Panic && s'.pc == Finishing && s'.w == run[j].w
  {
    StuckAlong(lib, run, i, j);
    InStepAlong(lib, run, j);
    forall s' | run[j].pc == AtVnc && StageStep(lib, run[j], s')
      ensures s'.out == Panic && s'.pc == Finishing && s'.w == run[j].w
    {
      StuckStageDies(lib, run[j], s');
    }
  }

  lemma {:induction false} StaysStuckNext(lib: Lib, s: State, s': State)
    requires Next(lib, s, s') && VncInStep(s) && s.pc != Idle && s'.pc != Idle && Stuck(s.mem)
    ensures Stuck(s'.mem)
  {
    if s.pc == AtVnc && StageStep(lib, s, s') {
      VncStageTold(lib, s, s');
    } else {
      VncCarriedBy(lib, s, s');
    }
  }

  lemma {:induction false} StaysStuckAt(lib: Lib, run: seq<State>, q: nat)
    requires Run(lib, run) && 0 < q < |run| && run[q - 1].pc != Idle && run[q].pc != Idle && Stuck(run[q - 1].mem)
    ensures Stuck(run[q].mem)
  {
    InStepAlong(lib, run, q - 1);
    StepOf(lib, run, q);
    StaysStuckNext(lib, run[q - 1], run[q]);
  }

  lemma {:induction false} StuckAfter(lib: Lib, run: seq<State>, k: nat)
    requires SticksAt(lib, run, k)
    ensures Stuck(run[k + 1].mem)
  {
    VncStageTold(lib, run[k], run[k + 1]);
  }

  lemma {:induction false} StaysStuck(lib: Lib, run: seq<State>, k: nat, q: nat)
    requires Run(lib, run) && k <= q < |run| && Stuck(run[k].mem) && forall j :: k <= j <= q ==> run[j].pc != Idle
    ensures Stuck(run[q].mem)
    decreases q - k
  {
    if k < q {
      StaysStuckAt(lib, run, k + 1);
      StaysStuck(lib, run, k + 1, q);
    }
  }

  lemma {:induction false} StuckOnceStored(lib: Lib, run: seq<State>, p: nat, i: nat)
    requires Run(lib, run) && VncUnedited(run) && p < i < |run| && PatchStep(run[p], run[p + 1]) && Stuck(run[p].mem)
    ensures Stuck(run[i].stored)
  {
    assert Stuck(run[p + 1].stored);
    StuckAlong(lib, run, p + 1, i);
  }

  lemma {:induction false} StuckInStore(lib: Lib, run: seq<State>, k: nat, p: nat, i: nat)
    requires Run(lib, run) && VncUnedited(run) && StuckByPass(lib, run, k, p, i)
    ensures Stuck(run[i].stored)
  {
    StuckAfter(lib, run, k);
    StaysStuck(lib, run, k + 1, p);
    StuckOnceStored(lib, run, p, i);
  }

  /** With settings nobody edits, the stored record is stuck exactly if a pass made it so and stored it. */
  lemma {:induction false} StuckExactly(lib: Lib, run: seq<State>, i: nat)
    requires Run(lib, run) && i < |run| && VncUnedited(run)
    ensures Stuck(run[i].stored) <==> exists k: nat, p: nat :: StuckByPass(lib, run, k, p, i)
  {
    CausesAlong(lib, run, i);
    if k: nat, p: nat :| StuckByPass(lib, run, k, p, i) {
      StuckInStore(lib, run, k, p, i);
    }
    forall k: nat | k < i
      ensures !StuckByEdit(run, k, i)
    {
      assert OthersStep(run[k], run[k + 1]) ==> Stuck(run[k].stored) == Stuck(run[k + 1].stored);
    }
  }

  /******* What is written under the VNC keys *******/

  // Every port and password ever written is the one the spec now has.
  ghost predicate LogTells(s: State) {
    forall i :: 0 <= i < |s.w.log| ==> TellsVnc(s.w.log[i], if s.pc == Idle then s.stored.vnc else s.mem.vnc)
  }

  lemma {:induction false} TellsAfterGeneration(e: Event, spec: Option<Vnc>, filled: Option<Vnc>)
    requires TellsVnc(e, spec) && OnlyGenerated(spec, filled)
    ensures TellsVnc(e, filled)
  {
  }

  lemma {:induction false} TellsByCalm(lib: Lib, s: State, s': State)
    requires LogTells(s) && CalmStep(lib, s, s')
    ensures LogTells(s')
  {
    OnlyGeneratedSame(s.mem.vnc);
    forall i | 0 <= i < |s'.w.log|
      ensures TellsVnc(s'.w.log[i], s'.mem.vnc)
    {
      if i < |s.w.log| {
        assert s'.w.log[i] == s.w.log[i];
        TellsAfterGeneration(s.w.log[i], s.mem.vnc, s'.mem.vnc);
      }
    }
  }

  lemma {:induction false} TellsMore(s: State, s': State)
    requires LogTells(s) && s.pc != Idle && s'.mem.vnc == s.mem.vnc && s'.pc != Idle && s.w.log <= s'.w.log
    requires forall i :: |s.w.log| <= i < |s'.w.log| ==> !s'.w.log[i].Configured?
    ensures LogTells(s')
  {
    assert forall i :: 0 <= i < |s.w.log| ==> s'.w.log[i] == s.w.log[i];
  }

  // What creating, switching and deleting a VM logs.
  lemma {:induction false} TellsByLifecycle(s: State, s': State)
    requires LogTells(s) && (CreateStep(s, s') || DeleteStep(s, s') || PowerStep(s, s'))
    ensures LogTells(s')
  {
    if DeleteStep(s, s') {
      DeletionFrame(s, s');
    }
    TellsMore(s, s');
  }

  lemma {:induction false} TellsBetweenStages(s: State, s': State)
    requires LogTells(s)
    requires BeginStep(s, s') || ProbeStep(s, s') || RouteStep(s, s') || PatchStep(s, s')
      || (LoseStep(s, s') && s.mem.vnc == s.stored.vnc) || (OthersStep(s, s') && s'.stored.vnc == s.stored.vnc)
    ensures LogTells(s')
  {
  }

  // No pass that generated a port or password lost its patch.
  ghost predicate GenerationsKept(run: seq<State>) {
    forall i :: 0 <= i < |run| - 1 && LoseStep(run[i], run[i + 1]) ==> run[i].mem.vnc == run[i].stored.vnc
  }

  lemma {:induction false} TellsNext(lib: Lib, s: State, s': State)
    requires LogTells(s) && Move(lib, s, s') && (OthersStep(s, s') ==> s'.stored.vnc == s.stored.vnc)
    requires LoseStep(s, s') ==> s.mem.vnc == s.stored.vnc
    ensures LogTells(s')
  {
    if CalmStep(lib, s, s') {
      TellsByCalm(lib, s, s');
    } else if CreateStep(s, s') || DeleteStep(s, s') || PowerStep(s, s') {
      TellsByLifecycle(s, s');
    } else {
      TellsBetweenStages(s, s');
    }
  }

  lemma {:induction false} TellsAlong(lib: Lib, run: seq<State>, i: nat)
    requires Moving(lib, run) && VncUnedited(run) && GenerationsKept(run) && i < |run|
    ensures LogTells(run[i])
  {
    if i > 0 {
      TellsAlong(lib, run, i - 1);
      MoveOf(lib, run, i);
      TellsNext(lib, run[i - 1], run[i]);
    }
  }

  predicate Writes(e: Event, setting: VncField) {
    e.Configured? && e.key.RemoteDisplay? && e.key.setting == setting
  }

  /**
   If no generating pass lost its patch and nobody edits the settings, then over a whole run every
   port written, to whatever VM and under whatever prefix, is the same one, and so is every password.
   */
  lemma {:induction false} OneValueWritten(lib: Lib, run: seq<State>, i: nat, setting: VncField, a: nat, b: nat)
    requires Run(lib, run) && VncUnedited(run) && GenerationsKept(run) && i < |run|
    requires a < |run[i].w.log| && b < |run[i].w.log| && setting != Enabled
    requires Writes(run[i].w.log[a], setting) && Writes(run[i].w.log[b], setting)
    ensures run[i].w.log[a].value == run[i].w.log[b].value
  {
    RunMoves(lib, run);
    TellsAlong(lib, run, i);
    assert TellsVnc(run[i].w.log[a], if run[i].pc == Idle then run[i].stored.vnc else run[i].mem.vnc);
  }
}
