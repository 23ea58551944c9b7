/** What synchronising the shared folders achieves. */
module FolderSync {
  import opened Options
  import opened Api
  import opened Cloud
  import opened Folders

  // The last entry of `folders` with this id.
  function LastIndex(folders: seq<SharedFolder>, id: string): (i: int)
    ensures -1 <= i < |folders|
    ensures i >= 0 ==> folders[i].id == id
    ensures forall j :: i < j < |folders| ==> folders[j].id != id
  {
    if folders == [] then -1
    else if folders[|folders| - 1].id == id then |folders| - 1
    else LastIndex(folders[..|folders| - 1], id)
  }

  lemma {:induction false} LastWinsMeans(folders: seq<SharedFolder>, id: string)
    ensures id in LastWins(folders) <==> exists i :: 0 <= i < |folders| && folders[i].id == id
    ensures id in LastWins(folders) <==> LastIndex(folders, id) >= 0
    ensures id in LastWins(folders) ==> LastWins(folders)[id] == folders[LastIndex(folders, id)]
  {
    if folders != [] {
      var before := folders[..|folders| - 1];
      LastWinsMeans(before, id);
      assert folders == before + [folders[|folders| - 1]];
    }
  }

  /** The spec's folders, entry by entry: the last one of an id counts, and flags default to 4. */
  lemma {:induction false} TargetMeans(spec: seq<SharedFolder>, id: string)
    ensures id in Target(spec) <==> exists i :: 0 <= i < |spec| && spec[i].id == id
    ensures id in Target(spec) ==>
      var last := spec[LastIndex(spec, id)];
      Target(spec)[id] == Folder(last.hostPath, if last.flags.Some? then last.flags.value else 4)
  {
    LastWinsMeans(spec, id);
  }

  // The VM has exactly the spec's folders, at the spec's paths.
  ghost predicate FoldersAgree(spec: seq<SharedFolder>, folders: map<string, Folder>) {
    && folders.Keys == HostPaths(spec).Keys
    && forall id :: id in folders ==> folders[id].hostPath == HostPaths(spec)[id]
  }

  lemma {:induction false} TargetAgrees(spec: seq<SharedFolder>)
    ensures FoldersAgree(spec, Target(spec))
  {
  }

  // Comparing the spec with what is read compares it with the VM.
  lemma {:induction false} ReadingTells(spec: seq<SharedFolder>, read: seq<SharedFolder>, folders: map<string, Folder>)
    requires LastWins(read) == Reported(folders)
    ensures SameFolders(spec, read) <==> FoldersAgree(spec, folders)
  {
    assert HostPaths(read).Keys == folders.Keys;
    assert forall id :: id in folders ==> HostPaths(read)[id] == folders[id].hostPath;
  }

  /**
   A pass of the stage that gets all its writes through, whatever the VM's folders were and however
   an earlier pass ended, leaves the VM with exactly what the spec asks; and the stage's next pass,
   unless somebody changed the folders, writes nothing and lets the machine go on.
   */
  lemma {:induction false} SyncedOnce(d: Desired, id: string, m: Record, w: World, m1: Record, w1: World,
                                      m2: Record, w2: World, m3: Record, w3: World, out: Outcome)
    requires FoldersStage(d, id, m, w, m1, w1, Requeue)
    requires m2.sharedFolders == m1.sharedFolders && id in w2.vms && w2.vms[id].folders == w1.vms[id].folders
    requires FoldersStage(d, id, m2, w2, m3, w3, out)
    ensures w1.vms[id].folders == Target(d.folders)
    ensures w3 == w2 && (out == Continue || (out == Error && !w2.reliable))
    ensures out == Continue ==> SameFolders(d.folders, m3.sharedFolders)
  {
    TargetAgrees(d.folders);
    if m3 != m2 {
      ReadingTells(d.folders, m3.sharedFolders, w2.vms[id].folders);
    }
  }

  /** The stage asks for another pass only when the VM differs from the spec, and then repairs it. */
  lemma {:induction false} RequeueMeansRepaired(d: Desired, id: string, m: Record, w: World, m': Record, w': World, out: Outcome)
    requires FoldersStage(d, id, m, w, m', w', out) && w.reliable && id in w.vms
    ensures out == Continue || out == Requeue
    ensures out == Requeue <==> !SameFolders(d.folders, m.sharedFolders) && !FoldersAgree(d.folders, w.vms[id].folders)
    ensures out == Requeue ==> FoldersAgree(d.folders, w'.vms[id].folders)
  {
    TargetAgrees(d.folders);
    if m' != m {
      ReadingTells(d.folders, m'.sharedFolders, w.vms[id].folders);
    }
  }

  /** Whatever a pass of the stage does and however it ends: a folder it removes the spec does not name, and one it puts has path and flags of an entry of the spec. */
  lemma {:induction false} OnlyForeignRemoved(d: Desired, id: string, m: Record, w: World, m': Record, w': World, out: Outcome, i: nat)
    requires FoldersStage(d, id, m, w, m', w', out) && |w.log| <= i < |w'.log|
    ensures w'.log[i].FolderPut? || w'.log[i].FolderGone?
    ensures w'.log[i].FolderGone? ==> w'.log[i].id == id && forall k :: 0 <= k < |d.folders| ==> d.folders[k].id != w'.log[i].folderId
    ensures w'.log[i].FolderPut? ==>
      && w'.log[i].id == id
      && exists k :: 0 <= k < |d.folders| && d.folders[k].id == w'.log[i].folderId
           && w'.log[i].folder == Folder(d.folders[k].hostPath, if d.folders[k].flags.Some? then d.folders[k].flags.value else 4)
  {
    assert FolderEvent(w'.log[i], id, d.folders);
    if w'.log[i].FolderGone? {
      LastWinsMeans(d.folders, w'.log[i].folderId);
    }
  }

  // Where the VM has a folder of the spec, it has the flags asked for.
  ghost predicate FlagsRight(spec: seq<SharedFolder>, folders: map<string, Folder>) {
    forall id :: id in folders && id in Target(spec) ==> folders[id].flags == Target(spec)[id].flags
  }

  lemma {:induction false} TargetByParts(spec: seq<SharedFolder>, folders: map<string, Folder>)
    ensures folders == Target(spec) <==> FoldersAgree(spec, folders) && FlagsRight(spec, folders)
  {
    assert Target(spec).Keys == HostPaths(spec).Keys;
    if FoldersAgree(spec, folders) && FlagsRight(spec, folders) {
      forall id | id in folders
        ensures folders[id] == Target(spec)[id]
      {
        assert folders[id].hostPath == Target(spec)[id].hostPath && folders[id].flags == Target(spec)[id].flags;
      }
    }
  }

  /**
   When a pass of the stage that did not fail leaves the VM with exactly the folders asked for: if
   it wrote, which it does when neither the status nor the VM shows their paths; or if the flags
   were right already.
   */
  lemma {:induction false} TargetExactly(d: Desired, id: string, m: Record, w: World, m': Record, w': World, out: Outcome)
    requires FoldersStage(d, id, m, w, m', w', out) && (out == Continue || out == Requeue) && id in w.vms
    ensures out == Requeue <==> !SameFolders(d.folders, m.sharedFolders) && !FoldersAgree(d.folders, w.vms[id].folders)
    ensures id in w'.vms
    ensures w'.vms[id].folders == Target(d.folders) <==>
      out == Requeue || (FoldersAgree(d.folders, w.vms[id].folders) && FlagsRight(d.folders, w.vms[id].folders))
  {
    TargetByParts(d.folders, w.vms[id].folders);
    TargetAgrees(d.folders);
    if !SameFolders(d.folders, m.sharedFolders) {
      ReadingTells(d.folders, m'.sharedFolders, w.vms[id].folders);
    }
  }

  lemma {:induction false} OnlyEmptyIsEmpty(folders: seq<SharedFolder>)
    ensures SameFolders([], folders) <==> folders == []
    ensures Target(folders) == map[] <==> folders == []
  {
    if folders != [] {
      LastWinsMeans(folders, folders[0].id);
      assert folders[0].id in HostPaths(folders) && folders[0].id !in HostPaths([]);
      assert folders[0].id in Target(folders);
    }
  }

  /** A spec without folders is enforced exactly on a VM that has none, or whose folders the status has read before. */
  lemma {:induction false} EmptySpecExactly(d: Desired, id: string, m: Record, w: World, m': Record, w': World, out: Outcome)
    requires FoldersStage(d, id, m, w, m', w', out) && (out == Continue || out == Requeue) && id in w.vms && d.folders == []
    ensures id in w'.vms && (w'.vms[id].folders == map[] <==> w.vms[id].folders == map[] || m.sharedFolders != [])
  {
    OnlyEmptyIsEmpty(m.sharedFolders);
    OnlyEmptyIsEmpty(d.folders);
    TargetExactly(d, id, m, w, m', w', out);
    if m.sharedFolders != [] && out == Continue {
      ReadingTells(d.folders, m'.sharedFolders, w.vms[id].folders);
      assert w.vms[id].folders.Keys == {};
    }
  }

  /** A folder that differs from the spec in its flags alone is left as it is. */
  lemma {:induction false} FlagsAloneIgnored(d: Desired, id: string, m: Record, w: World, m': Record, w': World, out: Outcome)
    requires d.folders == [SharedFolder("src", "/src", Some(1))]
    requires id in w.vms && w.vms[id].folders == map["src" := Folder("/src", 4)]
    requires FoldersStage(d, id, m, w, m', w', out)
    ensures w' == w && w'.vms[id].folders != Target(d.folders)
    ensures w.reliable ==> out == Continue
  {
    var spec := d.folders;
    assert spec[..0] == [];
    assert LastWins(spec) == map["src" := spec[0]];
    assert FoldersAgree(spec, w.vms[id].folders);
    assert Target(spec)["src"].flags == 1;
    if !SameFolders(spec, m.sharedFolders) && m' != m {
      ReadingTells(spec, m'.sharedFolders, w.vms[id].folders);
    }
  }

  // However far an interrupted pass came, folders the spec does not name were not added, and those
  // of the spec it did not reach are as before.
  lemma {:induction false} PartialSyncMeans(folders: map<string, Folder>, spec: seq<SharedFolder>, after: map<string, Folder>, id: string)
    requires PartlySynced(folders, spec, after) && id in after
    ensures id in folders || id in Target(spec)
    ensures id !in Target(spec) ==> after[id] == folders[id]
    ensures id !in folders ==> exists k :: 0 <= k <= |spec| && id in Target(spec[..k]) && after[id] == Target(spec[..k])[id]
  {
    var gone: set<string>, k: nat :|
      && k <= |spec| && gone <= folders.Keys - Target(spec).Keys
      && (k > 0 ==> gone == folders.Keys - Target(spec).Keys)
      && after == AfterPart(folders, spec, gone, k);
    if id in Target(spec[..k]) {
      TargetMeans(spec[..k], id);
      var i :| 0 <= i < k && spec[..k][i].id == id;
      assert spec[i].id == id;
      TargetMeans(spec, id);
    }
  }
}
