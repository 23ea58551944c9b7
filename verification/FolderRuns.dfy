/** Over whole runs, a status that shows the spec's folders tells the truth about the VM. */
module FolderRuns {
  import opened Options
  import opened Api
  import opened Cloud
  import opened Folders
  import opened Bootstrap
  import opened System
  import opened FolderSync
  import opened Moves

  // A machine that stays: without a VM nothing was read yet; with one, a status that shows the
  // spec's folders is right.
  ghost predicate FoldersHonest(d: Desired, m: Record, w: World) {
    || m.deleting
    || (m.vmID.None? && m.sharedFolders == [])
    || (m.vmID.Some? && m.vmID.value in w.vms
        && (SameFolders(d.folders, m.sharedFolders) ==> FoldersAgree(d.folders, w.vms[m.vmID.value].folders)))
  }

  // The pass has not come to the folders yet.
  predicate BeforeFolders(pc: Pc) {
    pc != Idle && pc != Finishing && Order(pc) <= 4
  }

  ghost predicate FolderTruth(s: State) {
    && FoldersHonest(s.d, s.stored, s.w)
    && (s.pc != Idle ==> FoldersHonest(s.d, s.mem, s.w) && (s.mem.deleting ==> s.stored.deleting))
    && (s.pc != Idle && s.pc != Finishing ==> s.mem.vmID == s.stored.vmID)
    && (BeforeFolders(s.pc) ==> s.mem.sharedFolders == s.stored.sharedFolders)
    && (Order(s.pc) > 0 || s.pc == Creating ==> !s.mem.deleting)
    && (s.pc == Creating ==> s.mem.vmID.None?)
    && (s.pc == Deleting ==> s.mem.deleting && s.stored.deleting)
  }

  // Others leave the machine's VM and its folders alone, and the spec is not edited.
  ghost predicate FoldersLeftAlone(s: State, s': State) {
    && s'.d == s.d
    && forall v :: v in s.w.vms && (s.stored.vmID == Some(v) || (s.pc != Idle && s.mem.vmID == Some(v))) ==>
         v in s'.w.vms && s'.w.vms[v].folders == s.w.vms[v].folders
  }

  ghost predicate FoldersUndisturbed(run: seq<State>) {
    forall i :: 0 <= i < |run| - 1 && OthersStep(run[i], run[i + 1]) ==> FoldersLeftAlone(run[i], run[i + 1])
  }

  lemma {:induction false} TruthByFolders(lib: Lib, s: State, s': State)
    requires FolderTruth(s) && s.d.folders != [] && CalmStep(lib, s, s') && s.pc == AtFolders
    ensures FolderTruth(s')
  {
  }

  lemma {:induction false} TruthByCalm(lib: Lib, s: State, s': State)
    requires FolderTruth(s) && s.d.folders != [] && CalmStep(lib, s, s') && s.pc != AtFolders
    ensures FolderTruth(s')
  {
  }

  lemma {:induction false} TruthByPower(s: State, s': State)
    requires FolderTruth(s) && PowerStep(s, s')
    ensures FolderTruth(s')
  {
  }

  // The probe patches the power state it read.
  lemma {:induction false} TruthByProbed(s: State, s': State)
    requires FolderTruth(s) && ProbeStep(s, s') && s.mem.vmID.Some? && s'.pc == Routing
    ensures FolderTruth(s')
  {
    assert s'.mem == s.mem.(state := s'.mem.state);
    assert s'.stored == Patched(s.stored, s'.mem);
  }

  lemma {:induction false} TruthByProbe(s: State, s': State)
    requires FolderTruth(s) && ProbeStep(s, s')
    ensures FolderTruth(s')
  {
    if s.mem.vmID.Some? && s'.pc == Routing {
      TruthByProbed(s, s');
    }
  }

  lemma {:induction false} NothingReadYet(spec: seq<SharedFolder>)
    requires spec != []
    ensures !SameFolders(spec, [])
  {
    LastWinsMeans(spec, spec[0].id);
    assert spec[0].id in HostPaths(spec) && spec[0].id !in HostPaths([]);
  }

  lemma {:induction false} TruthByCreation(s: State, s': State)
    requires FolderTruth(s) && s.d.folders != [] && CreateStep(s, s')
    ensures FolderTruth(s')
  {
    NothingReadYet(s.d.folders);
  }

  lemma {:induction false} TruthByDeletion(s: State, s': State)
    requires FolderTruth(s) && Dismantled(s, s')
    ensures FolderTruth(s')
  {
  }

  lemma {:induction false} TruthBetweenStages(s: State, s': State)
    requires FolderTruth(s)
    requires BeginStep(s, s') || RouteStep(s, s') || LoseStep(s, s')
    ensures FolderTruth(s')
  {
  }

  lemma {:induction false} TruthByPatch(s: State, s': State)
    requires FolderTruth(s) && PatchStep(s, s')
    ensures FolderTruth(s')
  {
  }

  lemma {:induction false} TruthByOthers(s: State, s': State)
    requires FolderTruth(s) && OthersStep(s, s') && FoldersLeftAlone(s, s')
    ensures FolderTruth(s')
  {
  }

  lemma {:induction false} TruthNext(lib: Lib, s: State, s': State)
    requires FolderTruth(s) && s.d.folders != [] && Move(lib, s, s') && (OthersStep(s, s') ==> FoldersLeftAlone(s, s'))
    ensures FolderTruth(s') && s'.d == s.d
  {
    if CalmStep(lib, s, s') {
      if s.pc == AtFolders {
        TruthByFolders(lib, s, s');
      } else {
        TruthByCalm(lib, s, s');
      }
    } else if PowerStep(s, s') {
      TruthByPower(s, s');
    } else if ProbeStep(s, s') {
      TruthByProbe(s, s');
    } else if CreateStep(s, s') {
      TruthByCreation(s, s');
    } else if DeleteStep(s, s') {
      DeletionFrame(s, s');
      TruthByDeletion(s, s');
    } else if PatchStep(s, s') {
      TruthByPatch(s, s');
    } else if OthersStep(s, s') {
      TruthByOthers(s, s');
    } else {
      TruthBetweenStages(s, s');
    }
  }

  lemma {:induction false} TruthHolds(lib: Lib, run: seq<State>, i: nat)
    requires Moving(lib, run) && FoldersUndisturbed(run) && run[0].d.folders != [] && i < |run|
    ensures FolderTruth(run[i]) && run[i].d == run[0].d
  {
    if i > 0 {
      TruthHolds(lib, run, i - 1);
      MoveOf(lib, run, i);
      TruthNext(lib, run[i - 1], run[i]);
    }
  }

  /**
   With a fixed list of folders that is not empty and nobody else touching the VM, on every run,
   whatever calls and patches fail: if the stored status shows the spec's folders, the VM has them.
   */
  lemma {:induction false} FolderStatusIsTrue(lib: Lib, run: seq<State>, i: nat)
    requires Run(lib, run) && FoldersUndisturbed(run) && run[0].d.folders != [] && i < |run|
    requires var s := run[i]; !s.stored.deleting && SameFolders(s.d.folders, s.stored.sharedFolders)
    ensures var s := run[i];
            s.stored.vmID.Some? && s.stored.vmID.value in s.w.vms
            && FoldersAgree(s.d.folders, s.w.vms[s.stored.vmID.value].folders)
  {
    RunMoves(lib, run);
    TruthHolds(lib, run, i);
    NothingReadYet(run[i].d.folders);
  }

  /******* From the clone on, the log tells the folders *******/

  // The pass of the c-th step clones VM `id`.
  ghost predicate ClonedAt(lib: Lib, run: seq<State>, c: nat, id: string) {
    && c + 1 < |run| && run[c].pc == Creating && StageStep(lib, run[c], run[c + 1])
    && run[c + 1].out == Continue && run[c + 1].mem.vmID == Some(id)
  }

  // The record or the pass under way names VM `id`.
  predicate Named(s: State, id: string) {
    s.stored.vmID == Some(id) || (s.pc != Idle && s.mem.vmID == Some(id))
  }

  // While the machine has VM `id`, its folders are those of the clone as changed by the events since.
  ghost predicate Replayed(s: State, id: string, clone: map<string, Folder>, n: nat) {
    && n <= |s.w.log| && id in CreatedIds(s.w.log)
    && (Named(s, id) && id in s.w.vms ==> s.w.vms[id].folders == Replay(clone, s.w.log[n..], id))
  }

  // Every folder ever put was asked for by the spec.
  ghost predicate PutsAsked(s: State) {
    forall i :: 0 <= i < |s.w.log| && s.w.log[i].FolderPut? ==> AskedFor(s.d.folders, s.w.log[i].folderId, s.w.log[i].folder)
  }

  lemma {:induction false} ReplayOthers(folders: map<string, Folder>, events: seq<Event>, id: string)
    requires forall i :: 0 <= i < |events| ==> (events[i].FolderPut? || events[i].FolderGone? ==> events[i].id != id)
    ensures Replay(folders, events, id) == folders
  {
    if events != [] {
      ReplayOthers(folders, events[..|events| - 1], id);
    }
  }

  // Steps that leave the folders of VM `id` alone and log nothing about them.
  ghost predicate FoldersRest(s: State, s': State, id: string) {
    && s.w.log <= s'.w.log
    && (id in s'.w.vms ==> id in s.w.vms && s'.w.vms[id].folders == s.w.vms[id].folders)
    && forall i :: |s.w.log| <= i < |s'.w.log| ==> (s'.w.log[i].FolderPut? || s'.w.log[i].FolderGone? ==> s'.w.log[i].id != id)
  }

  lemma {:induction false} MoreLog(log: seq<Event>, log': seq<Event>, n: nat)
    requires n <= |log| && log <= log'
    ensures log'[n..] == log[n..] + log'[|log|..] && CreatedIds(log) <= CreatedIds(log')
  {
    assert forall i :: 0 <= i < |log| ==> log'[i] == log[i];
  }

  lemma {:induction false} ReplayedRests(s: State, s': State, id: string, clone: map<string, Folder>, n: nat)
    requires Replayed(s, id, clone, n) && FoldersRest(s, s', id) && (Named(s', id) ==> Named(s, id))
    ensures Replayed(s', id, clone, n)
  {
    MoreLog(s.w.log, s'.w.log, n);
    var since, more := s.w.log[n..], s'.w.log[|s.w.log|..];
    ReplayMore(clone, since, more, id);
    ReplayOthers(Replay(clone, since, id), more, id);
  }

  lemma {:induction false} ReplayedByFolders(lib: Lib, s: State, s': State, id: string, clone: map<string, Folder>, n: nat)
    requires Replayed(s, id, clone, n) && CalmStep(lib, s, s') && s.pc == AtFolders && s.mem.vmID == Some(id)
    ensures Replayed(s', id, clone, n)
  {
    MoreLog(s.w.log, s'.w.log, n);
    ReplayMore(clone, s.w.log[n..], s'.w.log[|s.w.log|..], id);
  }

  lemma {:induction false} RestByCalm(lib: Lib, s: State, s': State, id: string)
    requires CalmStep(lib, s, s') && (s.pc == AtFolders ==> s.mem.vmID != Some(id))
    ensures FoldersRest(s, s', id) && (Named(s', id) ==> Named(s, id))
  {
  }

  lemma {:induction false} RestByLifecycle(s: State, s': State, id: string)
    requires DeleteStep(s, s') || PowerStep(s, s')
    ensures FoldersRest(s, s', id) && (Named(s', id) ==> Named(s, id))
  {
  }

  lemma {:induction false} RestByCreation(s: State, s': State, id: string)
    requires CreateStep(s, s') && id in CreatedIds(s.w.log)
    ensures FoldersRest(s, s', id) && (Named(s', id) ==> Named(s, id))
  {
  }

  lemma {:induction false} RestBetweenStages(s: State, s': State, id: string)
    requires BeginStep(s, s') || ProbeStep(s, s') || RouteStep(s, s') || PatchStep(s, s') || LoseStep(s, s')
    ensures FoldersRest(s, s', id) && (Named(s', id) ==> Named(s, id))
  {
  }

  lemma {:induction false} ReplayedByOthers(s: State, s': State, id: string, clone: map<string, Folder>, n: nat)
    requires Replayed(s, id, clone, n) && OthersStep(s, s') && FoldersLeftAlone(s, s')
    ensures Replayed(s', id, clone, n)
  {
  }

  lemma {:induction false} ReplayedNext(lib: Lib, s: State, s': State, id: string, clone: map<string, Folder>, n: nat)
    requires Replayed(s, id, clone, n) && Move(lib, s, s') && (OthersStep(s, s') ==> FoldersLeftAlone(s, s'))
    ensures Replayed(s', id, clone, n)
  {
    if OthersStep(s, s') {
      ReplayedByOthers(s, s', id, clone, n);
    } else if CalmStep(lib, s, s') && s.pc == AtFolders && s.mem.vmID == Some(id) {
      ReplayedByFolders(lib, s, s', id, clone, n);
    } else {
      if CalmStep(lib, s, s') {
        RestByCalm(lib, s, s', id);
      } else if CreateStep(s, s') {
        RestByCreation(s, s', id);
      } else if DeleteStep(s, s') || PowerStep(s, s') {
        RestByLifecycle(s, s', id);
      } else {
        RestBetweenStages(s, s', id);
      }
      ReplayedRests(s, s', id, clone, n);
    }
  }

  lemma {:induction false} AskedByCalm(lib: Lib, s: State, s': State)
    requires PutsAsked(s) && CalmStep(lib, s, s')
    ensures PutsAsked(s')
  {
    assert forall i :: 0 <= i < |s.w.log| ==> s'.w.log[i] == s.w.log[i];
  }

  lemma {:induction false} AskedByLifecycle(s: State, s': State)
    requires PutsAsked(s) && (CreateStep(s, s') || DeleteStep(s, s') || PowerStep(s, s'))
    ensures PutsAsked(s')
  {
  }

  lemma {:induction false} AskedBetweenStages(s: State, s': State)
    requires PutsAsked(s)
    requires BeginStep(s, s') || ProbeStep(s, s') || RouteStep(s, s') || PatchStep(s, s') || LoseStep(s, s')
      || (OthersStep(s, s') && s'.d == s.d)
    ensures PutsAsked(s')
  {
  }

  lemma {:induction false} AskedNext(lib: Lib, s: State, s': State)
    requires PutsAsked(s) && Move(lib, s, s') && (OthersStep(s, s') ==> s'.d == s.d)
    ensures PutsAsked(s')
  {
    if CalmStep(lib, s, s') {
      AskedByCalm(lib, s, s');
    } else if CreateStep(s, s') || DeleteStep(s, s') || PowerStep(s, s') {
      AskedByLifecycle(s, s');
    } else {
      AskedBetweenStages(s, s');
    }
  }

  lemma {:induction false} ReplayedAtBirth(lib: Lib, run: seq<State>, c: nat, id: string)
    requires ClonedAt(lib, run, c, id)
    ensures id in run[c + 1].w.vms
    ensures Replayed(run[c + 1], id, run[c + 1].w.vms[id].folders, |run[c + 1].w.log|)
  {
    var s' := run[c + 1];
    assert s'.w.log[|run[c].w.log|].Created?;
  }

  lemma {:induction false} ReplayedAt(lib: Lib, run: seq<State>, i: nat, id: string, clone: map<string, Folder>, n: nat)
    requires Moving(lib, run) && FoldersUndisturbed(run) && 0 < i < |run| && Replayed(run[i - 1], id, clone, n)
    ensures Replayed(run[i], id, clone, n)
  {
    var s, s' := run[i - 1], run[i];
    MoveOf(lib, run, i);
    ReplayedNext(lib, s, s', id, clone, n);
  }

  lemma {:induction false} ReplayedFrom(lib: Lib, run: seq<State>, k: nat, i: nat, id: string, clone: map<string, Folder>, n: nat)
    requires Moving(lib, run) && FoldersUndisturbed(run) && k <= i < |run| && Replayed(run[k], id, clone, n)
    ensures Replayed(run[i], id, clone, n)
  {
    if k < i {
      ReplayedFrom(lib, run, k, i - 1, id, clone, n);
      ReplayedAt(lib, run, i, id, clone, n);
    }
  }

  lemma {:induction false} AskedAlong(lib: Lib, run: seq<State>, i: nat)
    requires Moving(lib, run) && FoldersUndisturbed(run) && i < |run|
    ensures PutsAsked(run[i])
  {
    if i > 0 {
      AskedAlong(lib, run, i - 1);
      MoveOf(lib, run, i);
      AskedNext(lib, run[i - 1], run[i]);
    }
  }

  /******* When a settled machine has exactly the folders asked for *******/

  // The last folder these events put on VM `id` as `fid`.
  function LastPut(events: seq<Event>, id: string, fid: string): Option<Folder> {
    if events == [] then None
    else
      var last := events[|events| - 1];
      if last.FolderPut? && last.id == id && last.folderId == fid then Some(last.folder)
      else LastPut(events[..|events| - 1], id, fid)
  }

  lemma {:induction false} ReplayMeans(folders: map<string, Folder>, events: seq<Event>, id: string, fid: string)
    requires fid in Replay(folders, events, id)
    ensures match LastPut(events, id, fid)
            case Some(put) => Replay(folders, events, id)[fid] == put
            case None => fid in folders && Replay(folders, events, id)[fid] == folders[fid]
  {
    if events != [] {
      var before := events[..|events| - 1];
      if fid in Replay(folders, before, id) {
        ReplayMeans(folders, before, id, fid);
      }
    }
  }

  // The flags a folder of the spec ends with, put by a pass or come with the clone, are those asked for.
  ghost predicate FlagsComeRight(spec: seq<SharedFolder>, clone: map<string, Folder>, events: seq<Event>, id: string) {
    forall fid :: fid in Target(spec) ==>
      match LastPut(events, id, fid)
      case Some(put) => put.flags == Target(spec)[fid].flags
      case None => fid in clone && clone[fid].flags == Target(spec)[fid].flags
  }

  lemma {:induction false} FlagsByReplay(spec: seq<SharedFolder>, clone: map<string, Folder>, events: seq<Event>, id: string)
    requires FoldersAgree(spec, Replay(clone, events, id))
    ensures FlagsRight(spec, Replay(clone, events, id)) <==> FlagsComeRight(spec, clone, events, id)
  {
    assert Target(spec).Keys == Replay(clone, events, id).Keys;
    forall fid | fid in Target(spec)
      ensures match LastPut(events, id, fid)
              case Some(put) => Replay(clone, events, id)[fid] == put
              case None => fid in clone && Replay(clone, events, id)[fid] == clone[fid]
    {
      ReplayMeans(clone, events, id, fid);
    }
  }

  /**
   With a fixed list that is not empty and nobody else touching the VM: a machine whose stored status
   shows the spec's folders has exactly those, flags included, if and only if for each of them the
   flags last put since the clone, or else those of the clone, are the ones asked for.
   */
  lemma {:induction false} SettledFoldersExactly(lib: Lib, run: seq<State>, c: nat, id: string, i: nat)
    requires Run(lib, run) && FoldersUndisturbed(run) && run[0].d.folders != []
    requires ClonedAt(lib, run, c, id) && c < i < |run| && run[i].stored.vmID == Some(id)
    requires var s := run[i]; !s.stored.deleting && SameFolders(s.d.folders, s.stored.sharedFolders)
    ensures id in run[i].w.vms && id in run[c + 1].w.vms && |run[c + 1].w.log| <= |run[i].w.log|
    ensures run[i].w.vms[id].folders == Target(run[i].d.folders) <==>
      FlagsComeRight(run[i].d.folders, run[c + 1].w.vms[id].folders, run[i].w.log[|run[c + 1].w.log|..], id)
  {
    FolderStatusIsTrue(lib, run, i);
    RunMoves(lib, run);
    ReplayedAtBirth(lib, run, c, id);
    ReplayedFrom(lib, run, c + 1, i, id, run[c + 1].w.vms[id].folders, |run[c + 1].w.log|);
    TargetByParts(run[i].d.folders, run[i].w.vms[id].folders);
    FlagsByReplay(run[i].d.folders, run[c + 1].w.vms[id].folders, run[i].w.log[|run[c + 1].w.log|..], id);
  }

  predicate DistinctIds(spec: seq<SharedFolder>) {
    forall j, k :: 0 <= j < k < |spec| ==> spec[j].id != spec[k].id
  }

  lemma {:induction false} AskedIsTarget(spec: seq<SharedFolder>, fid: string, folder: Folder)
    requires DistinctIds(spec) && AskedFor(spec, fid, folder)
    ensures fid in Target(spec) && Target(spec)[fid] == folder
  {
    TargetMeans(spec, fid);
  }

  lemma {:induction false} LastPutIsPut(events: seq<Event>, id: string, fid: string) returns (i: nat)
    requires LastPut(events, id, fid).Some?
    ensures i < |events| && events[i].FolderPut? && events[i].folderId == fid && LastPut(events, id, fid) == Some(events[i].folder)
  {
    i := |events| - 1;
    var last := events[i];
    if !(last.FolderPut? && last.id == id && last.folderId == fid) {
      i := LastPutIsPut(events[..i], id, fid);
    }
  }

  /** Where the ids of the list differ, every folder a pass puts is the one asked for; so only the clone's flags can be wrong. */
  lemma {:induction false} PutsAreRight(lib: Lib, run: seq<State>, i: nat, n: nat, id: string, fid: string)
    requires Run(lib, run) && FoldersUndisturbed(run) && i < |run| && n <= |run[i].w.log| && DistinctIds(run[i].d.folders)
    requires LastPut(run[i].w.log[n..], id, fid).Some?
    ensures fid in Target(run[i].d.folders)
    ensures LastPut(run[i].w.log[n..], id, fid) == Some(Target(run[i].d.folders)[fid])
  {
    RunMoves(lib, run);
    AskedAlong(lib, run, i);
    var k := LastPutIsPut(run[i].w.log[n..], id, fid);
    assert run[i].w.log[n..][k] == run[i].w.log[n + k];
    AskedIsTarget(run[i].d.folders, fid, run[i].w.log[n + k].folder);
  }

  /******* A list that is empty *******/

  // No folders were ever read or written.
  ghost predicate Untouched(s: State) {
    && s.d.folders == [] && s.stored.sharedFolders == [] && (s.pc != Idle ==> s.mem.sharedFolders == [])
    && forall i :: 0 <= i < |s.w.log| ==> !s.w.log[i].FolderPut? && !s.w.log[i].FolderGone?
  }

  lemma {:induction false} UntouchedByCalm(lib: Lib, s: State, s': State)
    requires Untouched(s) && CalmStep(lib, s, s')
    ensures Untouched(s')
  {
    assert forall i :: 0 <= i < |s.w.log| ==> s'.w.log[i] == s.w.log[i];
  }

  lemma {:induction false} UntouchedByLifecycle(s: State, s': State)
    requires Untouched(s) && (CreateStep(s, s') || Dismantled(s, s') || PowerStep(s, s'))
    ensures Untouched(s')
  {
    assert forall i :: 0 <= i < |s.w.log| ==> s'.w.log[i] == s.w.log[i];
  }

  lemma {:induction false} UntouchedByProbe(s: State, s': State)
    requires Untouched(s) && ProbeStep(s, s')
    ensures Untouched(s')
  {
  }

  lemma {:induction false} UntouchedBetweenStages(s: State, s': State)
    requires Untouched(s)
    requires BeginStep(s, s') || RouteStep(s, s') || PatchStep(s, s') || LoseStep(s, s')
      || (OthersStep(s, s') && s'.d == s.d)
    ensures Untouched(s')
  {
  }

  lemma {:induction false} UntouchedNext(lib: Lib, s: State, s': State)
    requires Untouched(s) && Move(lib, s, s') && (OthersStep(s, s') ==> s'.d == s.d)
    ensures Untouched(s')
  {
    if CalmStep(lib, s, s') {
      UntouchedByCalm(lib, s, s');
    } else if ProbeStep(s, s') {
      UntouchedByProbe(s, s');
    } else if CreateStep(s, s') || DeleteStep(s, s') || PowerStep(s, s') {
      if DeleteStep(s, s') {
        DeletionFrame(s, s');
      }
      UntouchedByLifecycle(s, s');
    } else {
      UntouchedBetweenStages(s, s');
    }
  }

  lemma {:induction false} UntouchedAlong(lib: Lib, run: seq<State>, i: nat)
    requires Moving(lib, run) && FoldersUndisturbed(run) && run[0].d.folders == [] && i < |run|
    ensures Untouched(run[i])
  {
    if i > 0 {
      UntouchedAlong(lib, run, i - 1);
      MoveOf(lib, run, i);
      UntouchedNext(lib, run[i - 1], run[i]);
    }
  }

  /**
   With a list that is empty from the start, the VM keeps the folders it was cloned with; so it has
   none, as asked, exactly if the clone had none.
   */
  lemma {:induction false} EmptySpecSettles(lib: Lib, run: seq<State>, c: nat, id: string, i: nat)
    requires Run(lib, run) && FoldersUndisturbed(run) && run[0].d.folders == []
    requires ClonedAt(lib, run, c, id) && c < i < |run| && run[i].stored.vmID == Some(id) && id in run[i].w.vms
    ensures id in run[c + 1].w.vms && run[i].w.vms[id].folders == run[c + 1].w.vms[id].folders
    ensures run[i].w.vms[id].folders == Target(run[i].d.folders) <==> run[c + 1].w.vms[id].folders == map[]
  {
    RunMoves(lib, run);
    ReplayedAtBirth(lib, run, c, id);
    var clone, n := run[c + 1].w.vms[id].folders, |run[c + 1].w.log|;
    ReplayedFrom(lib, run, c + 1, i, id, clone, n);
    UntouchedAlong(lib, run, i);
    ReplayOthers(clone, run[i].w.log[n..], id);
    OnlyEmptyIsEmpty(run[i].d.folders);
  }
}
