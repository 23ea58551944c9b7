/** Shared folders: delete what the spec does not name, then upsert what it names. */
module Folders {
  import opened Options
  import opened Api
  import opened Cloud

  const DEFAULT_FLAGS := 4

  function HostPaths(folders: seq<SharedFolder>): map<string, string> {
    var byId := LastWins(folders);
    map id | id in byId :: byId[id].hostPath
  }

  ghost predicate SameFolders(a: seq<SharedFolder>, b: seq<SharedFolder>) {
    HostPaths(a) == HostPaths(b)
  }

  function AsFolder(entry: SharedFolder): Folder {
    Folder(entry.hostPath, entry.flags.GetOr(DEFAULT_FLAGS))
  }

  // What the spec asks the VM's folders to be.
  function Target(spec: seq<SharedFolder>): map<string, Folder> {
    var byId := LastWins(spec);
    map id | id in byId :: AsFolder(byId[id])
  }

  /******* Comparing two lists by key count *******/

  lemma {:induction false} SameSizeSubset<T>(a: set<T>, b: set<T>)
    requires a <= b && |a| == |b|
    ensures a == b
  {
    if x :| x in b && x !in a {
      assert a <= b - {x};
      SubsetIsSmaller(a, b - {x});
    }
  }

  lemma {:induction false} SubsetIsSmaller<T>(a: set<T>, b: set<T>)
    requires a <= b
    ensures |a| <= |b|
  {
    if x :| x in a {
      SubsetIsSmaller(a - {x}, b - {x});
    }
  }

  method ById(folders: seq<SharedFolder>) returns (byId: map<string, SharedFolder>)
    ensures byId == LastWins(folders)
  {
    byId := map[];
    for i := 0 to |folders|
      invariant byId == LastWins(folders[..i])
    {
      assert folders[..i + 1][..i] == folders[..i];
      byId := byId[folders[i].id := folders[i]];
    }
    assert folders[..|folders|] == folders;
  }

  method SharedFoldersEqual(spec: seq<SharedFolder>, status: seq<SharedFolder>) returns (equal: bool)
    ensures equal <==> SameFolders(spec, status)
  {
    var specMap := ById(spec);
    var statusMap := ById(status);
    assert HostPaths(spec).Keys == specMap.Keys && HostPaths(status).Keys == statusMap.Keys;
    if |specMap| != |statusMap| {
      assert |specMap.Keys| != |statusMap.Keys|;
      return false;
    }
    var rest := specMap.Keys;
    while rest != {}
      invariant rest <= specMap.Keys
      invariant forall id :: id in specMap && id !in rest ==>
        id in statusMap && specMap[id].hostPath == statusMap[id].hostPath
    {
      var id :| id in rest;
      if id !in statusMap || specMap[id].hostPath != statusMap[id].hostPath {
        assert id in HostPaths(spec);
        return false;
      }
      rest := rest - {id};
    }
    assert |specMap.Keys| == |statusMap.Keys|;
    SameSizeSubset(specMap.Keys, statusMap.Keys);
    return true;
  }

  /******* The stage *******/

  predicate AskedFor(spec: seq<SharedFolder>, fid: string, folder: Folder) {
    exists k :: 0 <= k < |spec| && spec[k].id == fid && folder == AsFolder(spec[k])
  }

  // An entry of the spec was put on VM `id`, or a folder foreign to the spec removed from it.
  predicate FolderEvent(e: Event, id: string, spec: seq<SharedFolder>) {
    && (e.FolderPut? || e.FolderGone?) && e.id == id
    && (e.FolderPut? ==> AskedFor(spec, e.folderId, e.folder))
    && (e.FolderGone? ==> e.folderId !in LastWins(spec))
  }

  ghost predicate OnlyFolderEvents(log: seq<Event>, n: nat, id: string, spec: seq<SharedFolder>) {
    forall i :: n <= i < |log| ==> FolderEvent(log[i], id, spec)
  }

  // The folders after `gone`, all of them foreign to the spec, were deleted and the first `k` upserted.
  function AfterPart(folders: map<string, Folder>, spec: seq<SharedFolder>, gone: set<string>, k: nat): map<string, Folder>
    requires k <= |spec|
  {
    folders - gone + Target(spec[..k])
  }

  ghost predicate PartlySynced(folders: map<string, Folder>, spec: seq<SharedFolder>, after: map<string, Folder>) {
    exists gone: set<string>, k: nat ::
      && k <= |spec| && gone <= folders.Keys - Target(spec).Keys
      && (k > 0 ==> gone == folders.Keys - Target(spec).Keys)
      && after == AfterPart(folders, spec, gone, k)
  }

  // The folders of VM `id` after these events.
  function Replay(folders: map<string, Folder>, events: seq<Event>, id: string): map<string, Folder> {
    if events == [] then folders else AfterEvent(Replay(folders, events[..|events| - 1], id), events[|events| - 1], id)
  }

  function AfterEvent(folders: map<string, Folder>, e: Event, id: string): map<string, Folder> {
    if e.FolderPut? && e.id == id then folders[e.folderId := e.folder]
    else if e.FolderGone? && e.id == id then folders - {e.folderId}
    else folders
  }

  lemma {:induction false} ReplayMore(folders: map<string, Folder>, events: seq<Event>, more: seq<Event>, id: string)
    ensures Replay(folders, events + more, id) == Replay(Replay(folders, events, id), more, id)
  {
    if more == [] {
      assert events + more == events;
    } else {
      var n := |more| - 1;
      assert (events + more)[..|events| + n] == events + more[..n];
      ReplayMore(folders, events, more[..n], id);
    }
  }

  // From w to w' only the folders of VM `id` changed, as the log tells.
  ghost predicate FolderWrites(w: World, w': World, id: string, spec: seq<SharedFolder>) {
    && id in w.vms && id in w'.vms
    && w.log <= w'.log && OnlyFolderEvents(w'.log, |w.log|, id, spec)
    && w'.vms[id].folders == Replay(w.vms[id].folders, w'.log[|w.log|..], id)
    && w' == w.(log := w'.log, vms := w.vms[id := w.vms[id].(folders := w'.vms[id].folders)])
  }

  ghost predicate FoldersStage(d: Desired, id: string, m: Record, w: World, m': Record, w': World, out: Outcome) {
    if SameFolders(d.folders, m.sharedFolders) then
      out == Continue && m' == m && w' == w
    else
      FoldersRefreshed(d, id, m, w, m', w', out)
  }

  // The list was read, and unless it shows what the spec asks for, the VM brought to the spec.
  ghost predicate FoldersRefreshed(d: Desired, id: string, m: Record, w: World, m': Record, w': World, out: Outcome) {
    if out == Error && m' == m && w' == w then
      !(w.reliable && id in w.vms)
    else
      && id in w.vms
      && m' == m.(sharedFolders := m'.sharedFolders)
      && LastWins(m'.sharedFolders) == Reported(w.vms[id].folders)
      && if SameFolders(d.folders, m'.sharedFolders) then out == Continue && w' == w
         else
           && FolderWrites(w, w', id, d.folders)
           && match out
              case Requeue => w'.vms[id].folders == Target(d.folders)
              case Error => !w.reliable && PartlySynced(w.vms[id].folders, d.folders, w'.vms[id].folders)
              case _ => false
  }

  lemma {:induction false} NoFolderWrites(w: World, id: string, spec: seq<SharedFolder>)
    requires id in w.vms
    ensures FolderWrites(w, w, id, spec)
  {
    assert w.vms[id := w.vms[id].(folders := w.vms[id].folders)] == w.vms;
  }

  lemma {:induction false} EventsJoined(log: seq<Event>, log': seq<Event>, n: nat, id: string, spec: seq<SharedFolder>)
    requires n <= |log| && log <= log' && OnlyFolderEvents(log, n, id, spec) && OnlyFolderEvents(log', |log|, id, spec)
    ensures OnlyFolderEvents(log', n, id, spec)
    ensures log'[n..] == log[n..] + log'[|log|..]
  {
    assert forall i :: n <= i < |log| ==> log'[i] == log[i];
  }

  lemma {:induction false} MoreFolderWrites(w: World, w1: World, w2: World, id: string, spec: seq<SharedFolder>)
    requires FolderWrites(w, w1, id, spec) && FolderWrites(w1, w2, id, spec)
    ensures FolderWrites(w, w2, id, spec)
  {
    EventsJoined(w1.log, w2.log, |w.log|, id, spec);
    ReplayMore(w.vms[id].folders, w1.log[|w.log|..], w2.log[|w1.log|..], id);
    assert w1.vms[id := w1.vms[id].(folders := w2.vms[id].folders)]
        == w.vms[id := w.vms[id].(folders := w2.vms[id].folders)];
  }

  // One folder event that got through.
  lemma {:induction false} OneFolderEvent(w: World, w': World, id: string, spec: seq<SharedFolder>, e: Event)
    requires id in w.vms && FolderEvent(e, id, spec)
    requires w' == w.(vms := w.vms[id := w.vms[id].(folders := AfterEvent(w.vms[id].folders, e, id))], log := w.log + [e])
    ensures FolderWrites(w, w', id, spec)
  {
    assert w'.log[|w.log|..] == [e];
    assert [e][..0] == [];
  }

  /** Deletes one folder; `w` is the world at the start of the stage. */
  method DeleteOne(hv: Hypervisor, ghost kube: Cluster, id: string, fid: string, ghost spec: seq<SharedFolder>, ghost w: World)
    returns (ok: bool)
    requires id in hv.vms && fid !in LastWins(spec) && FolderWrites(w, Seen(hv, kube), id, spec)
    modifies hv`vms, hv`log
    ensures FolderWrites(w, Seen(hv, kube), id, spec)
    ensures hv.vms[id].folders == old(hv.vms[id].folders) - if ok then {fid} else {}
    ensures hv.reliable ==> ok
  {
    ghost var w1 := Seen(hv, kube);
    ok := hv.DeleteSharedFolder(id, fid);
    if ok {
      OneFolderEvent(w1, Seen(hv, kube), id, spec, FolderGone(id, fid));
      MoreFolderWrites(w, w1, Seen(hv, kube), id, spec);
    }
  }

  method PutFolder(hv: Hypervisor, ghost kube: Cluster, id: string, fid: string, folder: Folder,
                   ghost spec: seq<SharedFolder>, ghost w: World)
    returns (ok: bool)
    requires id in hv.vms && AskedFor(spec, fid, folder) && FolderWrites(w, Seen(hv, kube), id, spec)
    modifies hv`vms, hv`log
    ensures FolderWrites(w, Seen(hv, kube), id, spec)
    ensures hv.vms[id].folders == old(hv.vms[id].folders) + if ok then map[fid := folder] else map[]
    ensures hv.reliable ==> ok
  {
    ghost var w1 := Seen(hv, kube);
    ok := hv.CreateSharedFolder(id, fid, folder);
    if ok {
      OneFolderEvent(w1, Seen(hv, kube), id, spec, FolderPut(id, fid, folder));
      MoreFolderWrites(w, w1, Seen(hv, kube), id, spec);
    }
  }

  /** Puts the k-th folder of the spec, with its flags or the default ones. */
  method UpsertOne(hv: Hypervisor, ghost kube: Cluster, id: string, spec: seq<SharedFolder>, k: nat, ghost w: World)
    returns (ok: bool)
    requires id in hv.vms && k < |spec| && FolderWrites(w, Seen(hv, kube), id, spec)
    modifies hv`vms, hv`log
    ensures FolderWrites(w, Seen(hv, kube), id, spec)
    ensures hv.vms[id].folders == old(hv.vms[id].folders) + if ok then map[spec[k].id := AsFolder(spec[k])] else map[]
    ensures hv.reliable ==> ok
  {
    var flags := DEFAULT_FLAGS;
    if spec[k].flags.Some? {
      flags := spec[k].flags.value;
    }
    ok := PutFolder(hv, kube, id, spec[k].id, Folder(spec[k].hostPath, flags), spec, w);
  }

  method DeleteStale(hv: Hypervisor, ghost kube: Cluster, id: string, status: map<string, SharedFolder>,
                     specMap: map<string, SharedFolder>, ghost spec: seq<SharedFolder>, ghost w: World)
    returns (ok: bool, ghost gone: set<string>)
    requires id in hv.vms && specMap == LastWins(spec) && FolderWrites(w, Seen(hv, kube), id, spec)
    modifies hv`vms, hv`log
    ensures FolderWrites(w, Seen(hv, kube), id, spec)
    ensures gone <= status.Keys - specMap.Keys && (ok ==> gone == status.Keys - specMap.Keys)
    ensures hv.vms[id].folders == old(hv.vms[id].folders) - gone
    ensures hv.reliable ==> ok
  {
    var rest := status.Keys;
    gone := {};
    while rest != {}
      modifies hv`vms, hv`log
      invariant rest <= status.Keys && gone == status.Keys - rest - specMap.Keys
      invariant FolderWrites(w, Seen(hv, kube), id, spec)
      invariant hv.vms[id].folders == old(hv.vms[id].folders) - gone
    {
      var fid :| fid in rest;
      rest := rest - {fid};
      if fid !in specMap {
        ok := DeleteOne(hv, kube, id, fid, spec, w);
        if !ok {
          return;
        }
        gone := gone + {fid};
      }
    }
    ok := true;
  }

  lemma {:induction false} TargetGrows(folders: map<string, Folder>, spec: seq<SharedFolder>, k: nat)
    requires k < |spec|
    ensures folders + Target(spec[..k + 1]) == folders + Target(spec[..k]) + map[spec[k].id := AsFolder(spec[k])]
  {
    assert spec[..k + 1][..k] == spec[..k];
    assert LastWins(spec[..k + 1]) == LastWins(spec[..k])[spec[k].id := spec[k]];
  }

  lemma {:induction false} PartSync(folders: map<string, Folder>, spec: seq<SharedFolder>, gone: set<string>, k: nat)
    requires k <= |spec| && gone <= folders.Keys - Target(spec).Keys
    requires k > 0 ==> gone == folders.Keys - Target(spec).Keys
    ensures PartlySynced(folders, spec, folders - gone + Target(spec[..k]))
  {
    assert PartlySynced(folders, spec, AfterPart(folders, spec, gone, k));
  }

  lemma {:induction false} WholeSync(folders: map<string, Folder>, spec: seq<SharedFolder>)
    ensures AfterPart(folders, spec, folders.Keys - Target(spec).Keys, |spec|) == Target(spec)
  {
    assert spec[..|spec|] == spec;
  }

  method UpsertAll(hv: Hypervisor, ghost kube: Cluster, id: string, spec: seq<SharedFolder>, ghost w: World)
    returns (ok: bool, ghost k: nat)
    requires id in hv.vms && FolderWrites(w, Seen(hv, kube), id, spec)
    modifies hv`vms, hv`log
    ensures FolderWrites(w, Seen(hv, kube), id, spec)
    ensures k <= |spec| && (ok ==> k == |spec|)
    ensures hv.vms[id].folders == old(hv.vms[id].folders) + Target(spec[..k])
    ensures hv.reliable ==> ok
  {
    ghost var folders := hv.vms[id].folders;
    k := 0;
    assert Target(spec[..k]) == map[];
    for i := 0 to |spec|
      modifies hv`vms, hv`log
      invariant k == i
      invariant FolderWrites(w, Seen(hv, kube), id, spec)
      invariant hv.vms[id].folders == folders + Target(spec[..k])
    {
      ok := UpsertOne(hv, kube, id, spec, i, w);
      if !ok {
        return;
      }
      TargetGrows(folders, spec, i);
      k := k + 1;
    }
    ok := true;
  }

  /** The two loops together, from the folders just read. */
  method WriteFolders(hv: Hypervisor, ghost kube: Cluster, id: string, spec: seq<SharedFolder>,
                      status: seq<SharedFolder>)
    returns (ok: bool)
    requires id in hv.vms && LastWins(status) == Reported(hv.vms[id].folders)
    modifies hv`vms, hv`log
    ensures FolderWrites(old(Seen(hv, kube)), Seen(hv, kube), id, spec)
    ensures ok ==> hv.vms[id].folders == Target(spec)
    ensures !ok ==> PartlySynced(old(hv.vms[id].folders), spec, hv.vms[id].folders)
    ensures hv.reliable ==> ok
  {
    ghost var w := Seen(hv, kube);
    ghost var folders := hv.vms[id].folders;
    NoFolderWrites(w, id, spec);
    var specMap := ById(spec);
    var statusMap := ById(status);
    ghost var gone: set<string>, k: nat;
    assert statusMap.Keys - specMap.Keys == folders.Keys - Target(spec).Keys;
    ok, gone := DeleteStale(hv, kube, id, statusMap, specMap, spec, w);
    if !ok {
      assert hv.vms[id].folders == folders - gone + Target(spec[..0]) by {
        assert Target(spec[..0]) == map[];
      }
      PartSync(folders, spec, gone, 0);
      return;
    }
    ok, k := UpsertAll(hv, kube, id, spec, w);
    PartSync(folders, spec, gone, k);
    WholeSync(folders, spec);
  }

  lemma {:induction false} FoldersWritten(d: Desired, id: string, m: Record, w: World, m': Record, w': World, out: Outcome)
    requires !SameFolders(d.folders, m'.sharedFolders)
    requires m' == m.(sharedFolders := m'.sharedFolders) && FolderWrites(w, w', id, d.folders)
    requires LastWins(m'.sharedFolders) == Reported(w.vms[id].folders)
    requires out == Requeue || (out == Error && !w.reliable)
    requires out == Requeue ==> w'.vms[id].folders == Target(d.folders)
    requires out == Error ==> PartlySynced(w.vms[id].folders, d.folders, w'.vms[id].folders)
    ensures FoldersRefreshed(d, id, m, w, m', w', out)
  {
  }

  /** Brings the VM to the spec unless the folders just read show that it is; the record was `r` and is `r'` with them. */
  method SyncFolders(hv: Hypervisor, ghost kube: Cluster, id: string, d: Desired, status: seq<SharedFolder>, ghost r: Record, ghost r': Record)
    returns (out: Outcome)
    requires r' == r.(sharedFolders := status)
    requires id in hv.vms && LastWins(status) == Reported(hv.vms[id].folders)
    modifies hv`vms, hv`log
    ensures FoldersRefreshed(d, id, r, old(Seen(hv, kube)), r', Seen(hv, kube), out)
  {
    ghost var w := Seen(hv, kube);
    out := Continue;
    var equal := SharedFoldersEqual(d.folders, status);
    if !equal {
      var ok := WriteFolders(hv, kube, id, d.folders, status);
      out := if ok then Requeue else Error;
      FoldersWritten(d, id, r, w, r', Seen(hv, kube), out);
    }
  }

  /** Reads the folders into the status, then brings the VM to the spec. */
  method RefreshFolders(hv: Hypervisor, ghost kube: Cluster, id: string, m: VDMachine) returns (out: Outcome)
    modifies hv`vms, hv`log, m`sharedFolders
    ensures FoldersRefreshed(m.desired, id, old(m.Rec()), old(Seen(hv, kube)), m.Rec(), Seen(hv, kube), out)
  {
    var reply := hv.GetAllSharedFolders(id);
    if !reply.Ok? {
      return Error;
    }
    ghost var r := m.Rec();
    m.sharedFolders := reply.value;
    out := SyncFolders(hv, kube, id, m.desired, reply.value, r, m.Rec());
  }

  method ReconcileSharedFolders(hv: Hypervisor, ghost kube: Cluster, id: string, m: VDMachine) returns (out: Outcome)
    modifies hv`vms, hv`log, m`sharedFolders
    ensures FoldersStage(m.desired, id, old(m.Rec()), old(Seen(hv, kube)), m.Rec(), Seen(hv, kube), out)
  {
    var equal := SharedFoldersEqual(m.desired.folders, m.sharedFolders);
    if equal {
      return Continue;
    }
    out := RefreshFolders(hv, kube, id, m);
  }
}
