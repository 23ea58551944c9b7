/**
 What a stage may change.  A calm stage neither creates, deletes nor switches a VM: it touches
 its own part of the record and the settings of the machine's own VM.
 */
module Frames {
  import opened Options
  import opened Api
  import opened Cloud
  import opened Lifecycle
  import opened Folders
  import opened Adapters
  import opened Claims
  import opened VncSettings
  import opened Bootstrap
  import opened Addresses
  import opened Metadata
  import opened FolderSync
  import opened VncRounds

  predicate Routine(e: Event, id: string) {
    (e.Resized? || e.Configured? || e.FolderPut? || e.FolderGone?) && e.id == id
  }

  // From w to w' only the settings of VM `id` changed, and its log shows nothing else.
  ghost predicate Tended(w: World, w': World, id: string) {
    && w' == w.(vms := w'.vms, log := w'.log)
    && w.log <= w'.log && (forall i :: |w.log| <= i < |w'.log| ==> Routine(w'.log[i], id))
    && w'.vms.Keys == w.vms.Keys
    && (forall v :: v in w.vms ==> w'.vms[v].power == w.vms[v].power && w'.vms[v].guest == w.vms[v].guest)
    && (forall v :: v in w.vms && v != id ==> w'.vms[v] == w.vms[v])
  }

  ghost predicate SameVMFolders(w: World, w': World) {
    && (forall v :: v in w.vms && v in w'.vms ==> w'.vms[v].folders == w.vms[v].folders)
    && forall i :: |w.log| <= i < |w'.log| ==> !w'.log[i].FolderPut? && !w'.log[i].FolderGone?
  }

  // The log tells what became of the folders of VM `id`.
  ghost predicate FoldersReplayed(w: World, w': World, id: string) {
    && |w.log| <= |w'.log|
    && (id in w.vms && id in w'.vms ==> w'.vms[id].folders == Replay(w.vms[id].folders, w'.log[|w.log|..], id))
  }

  // The status and the VM's folders stay; or the status, which did not show the spec's folders, is
  // read, and shows them only if the VM has them.
  ghost predicate FoldersTold(d: Desired, id: string, m: Record, w: World, m': Record, w': World) {
    && FoldersReplayed(w, w', id) && OnlyFolderEvents(w'.log, |w.log|, id, d.folders)
    && if m'.sharedFolders == m.sharedFolders && SameVMFolders(w, w') then true
    else
      && !SameFolders(d.folders, m.sharedFolders)
      && (SameFolders(d.folders, m'.sharedFolders) ==>
            SameVMFolders(w, w') && id in w.vms && FoldersAgree(d.folders, w.vms[id].folders))
  }

  predicate IsGuestWrite(e: Event) {
    e.Configured? && e.key.GuestInfo?
  }

  ghost predicate NoGuestWrites(w: World, w': World) {
    forall i :: |w.log| <= i < |w'.log| ==> !IsGuestWrite(w'.log[i])
  }

  // What was written under the VNC keys is what `vnc` says.
  ghost predicate VncWritesTold(w: World, w': World, vnc: Option<Vnc>) {
    forall i :: |w.log| <= i < |w'.log| ==> TellsVnc(w'.log[i], vnc)
  }

  predicate TellsVnc(e: Event, vnc: Option<Vnc>) {
    e.Configured? && e.key.RemoteDisplay? ==>
      && vnc.Some?
      && (e.key.setting == Port ==> vnc.value.port == Some(e.value))
      && (e.key.setting == Password ==> vnc.value.password == Some(e.value))
  }

  // All four bootstrap parameters of VM `id` were written at some time.
  ghost predicate Written(log: seq<Event>, id: string, key: Key) {
    exists i :: 0 <= i < |log| && log[i].Configured? && log[i].id == id && log[i].key == key
  }

  ghost predicate Booted(log: seq<Event>, id: string) {
    forall f: GuestField :: Written(log, id, GuestInfo(f))
  }

  lemma {:induction false} WritesTend(w: World, w': World, id: string, params: map<Key, string>)
    requires WroteSome(w, w', id, params)
    ensures Tended(w, w', id) && SameVMFolders(w, w')
    ensures (forall key :: key in params ==> !key.GuestInfo?) ==> NoGuestWrites(w, w')
    ensures forall vnc :: (forall key :: key in params ==> !key.RemoteDisplay?) ==> VncWritesTold(w, w', vnc)
  {
  }

  lemma {:induction false} FolderWritesTend(w: World, w': World, id: string, spec: seq<SharedFolder>)
    requires FolderWrites(w, w', id, spec)
    ensures Tended(w, w', id) && NoGuestWrites(w, w') && forall vnc :: VncWritesTold(w, w', vnc)
  {
  }

  lemma {:induction false} HardwareFrame(d: Desired, id: string, m: Record, w: World, m': Record, w': World, out: Outcome)
    requires HardwareStage(d, id, m, w, m', w', out)
    ensures Tended(w, w', id) && NoGuestWrites(w, w') && SameVMFolders(w, w') && VncWritesTold(w, w', m.vnc)
    ensures m' == m.(hardware := m'.hardware)
    ensures out == Continue ==> Sized(d, m')
  {
  }

  // The adapters in the status are those wanted, or all there are when none are.
  ghost predicate AdaptersSettled(d: Desired, m: Record) {
    var wanted := WantedAdapters(d);
    if wanted.Some? then AllContained(m.adapters.GetOr([]), wanted.value) == Some(true) else m.adapters.Some?
  }

  lemma {:induction false} AdaptersFrame(d: Desired, id: string, m: Record, w: World, m': Record, w': World, out: Outcome)
    requires AdaptersStage(d, id, m, w, m', w', out)
    ensures Tended(w, w', id) && NoGuestWrites(w, w') && SameVMFolders(w, w') && VncWritesTold(w, w', m.vnc)
    ensures m' == m.(adapters := m'.adapters)
    ensures out == Continue ==> AdaptersSettled(d, m')
  {
    var wanted := WantedAdapters(d);
    if w' != w {
      var list, spec := m'.adapters.value, wanted.value;
      WritesTend(w, w', id, MissingParams(list, spec, |list|, |spec|));
      MissingSlots(list, spec, |list|, |spec|);
    }
  }

  lemma {:induction false} ClaimsFrame(d: Desired, m: Record, w: World, m': Record, w': World, out: Outcome)
    requires ClaimsStage(d, m, w, m', w', out)
    ensures m' == m && w' == w.(claims := w'.claims, claimLog := w'.claimLog)
    ensures ClaimedInOrder(d, w, w')
  {
    var es := Ethernets(d);
    if out == Continue {
      assert es[..|es|] == es;
    }
  }

  lemma {:induction false} FoldersFrame(d: Desired, id: string, m: Record, w: World, m': Record, w': World, out: Outcome)
    requires FoldersStage(d, id, m, w, m', w', out)
    ensures Tended(w, w', id) && NoGuestWrites(w, w') && FoldersTold(d, id, m, w, m', w') && VncWritesTold(w, w', m.vnc)
    ensures m' == m.(sharedFolders := m'.sharedFolders)
    ensures out == Continue ==> SameFolders(d.folders, m'.sharedFolders)
  {
    if w' != w {
      FolderWritesTend(w, w', id, d.folders);
    }
    if m' != m {
      ReadingTells(d.folders, m'.sharedFolders, w.vms[id].folders);
    }
  }

  lemma {:induction false} VncParamsTell(spec: Vnc, e: Event)
    requires e.Configured? && e.key in VncParams(spec) && e.value == VncParams(spec)[e.key]
    ensures e.key.RemoteDisplay? && TellsVnc(e, Some(spec))
  {
  }

  lemma {:induction false} VncParamsTend(w: World, w': World, id: string, spec: Vnc)
    requires WroteSome(w, w', id, VncParams(spec))
    ensures Tended(w, w', id) && NoGuestWrites(w, w') && SameVMFolders(w, w') && VncWritesTold(w, w', Some(spec))
  {
    WritesTend(w, w', id, VncParams(spec));
    forall i | |w.log| <= i < |w'.log|
      ensures TellsVnc(w'.log[i], Some(spec)) && !IsGuestWrite(w'.log[i])
    {
      VncParamsTell(spec, w'.log[i]);
    }
  }

  lemma {:induction false} VncWritesTend(id: string, m: Record, w: World, m': Record, w': World, out: Outcome)
    requires m.vnc.Some? && VncWritten(id, m, w, m', w', out)
    ensures Tended(w, w', id) && NoGuestWrites(w, w') && SameVMFolders(w, w') && VncWritesTold(w, w', m'.vnc)
    ensures m' == m.(vnc := m'.vnc, vncStatus := m'.vncStatus)
    ensures out == Continue ==> m'.vncStatus.Some?
  {
    VncParamsTend(w, w', id, m'.vnc.value);
  }

  lemma {:induction false} VncFrame(d: Desired, id: string, m: Record, w: World, m': Record, w': World, out: Outcome)
    requires VncStage(d, id, m, w, m', w', out)
    ensures Tended(w, w', id) && NoGuestWrites(w, w') && SameVMFolders(w, w') && VncWritesTold(w, w', m'.vnc)
    ensures m' == m.(vnc := m'.vnc, vncStatus := m'.vncStatus) && OnlyGenerated(m.vnc, m'.vnc)
    ensures out == Continue ==> m'.vncStatus.Some?
  {
    StageOnlyGenerates(d, id, m, w, m', w', out);
    if m.vncStatus.Some? && m.vnc.Some? && Comparable(m.vnc.value, m.vncStatus.value) && !Agrees(m.vnc.value, m.vncStatus.value) {
      VncWritesTend(id, m, w, m', w', out);
    }
  }

  lemma {:induction false} KeysSinceMeans(log: seq<Event>, n: nat, key: Key)
    ensures key in KeysSince(log, n) <==> exists i :: n <= i < |log| && log[i].Configured? && log[i].key == key
  {
    if |log| > n {
      var most := log[..|log| - 1];
      KeysSinceMeans(most, n, key);
      assert forall i :: n <= i < |most| ==> most[i] == log[i];
    }
  }

  lemma {:induction false} WroteAllWritten(w: World, w': World, id: string, params: map<Key, string>, key: Key)
    requires WroteAll(w, w', id, params) && key in params
    ensures Written(w'.log, id, key)
  {
    KeysSinceMeans(w'.log, |w.log|, key);
  }

  lemma {:induction false} BootFrame(lib: Lib, d: Desired, id: string, m: Record, w: World, m': Record, w': World, out: Outcome)
    requires BootstrapStage(lib, d, id, m, w, m', w', out)
    ensures Tended(w, w', id) && SameVMFolders(w, w') && VncWritesTold(w, w', m.vnc) && (m.bootstrapped ==> w' == w)
    ensures m' == m.(bootstrapped := m.bootstrapped || out == Continue)
  {
    if !m.bootstrapped && w.secret.Some? && m.providerID.Some? {
      forall doc | WroteSome(w, w', id, BootParams(lib, w.secret.value, m.providerID.value, doc))
        ensures Tended(w, w', id) && SameVMFolders(w, w') && VncWritesTold(w, w', m.vnc)
      {
        WritesTend(w, w', id, BootParams(lib, w.secret.value, m.providerID.value, doc));
      }
    }
  }

  lemma {:induction false} BootKeys(lib: Lib, data: string, providerID: string, doc: Document, f: GuestField)
    ensures GuestInfo(f) in BootParams(lib, data, providerID, doc)
  {
    match f
    case UserData =>
    case UserDataEncoding =>
    case MetaData =>
    case MetaDataEncoding =>
  }

  lemma {:induction false} BootWrites(lib: Lib, d: Desired, id: string, m: Record, w: World, m': Record, w': World, out: Outcome)
    requires BootstrapStage(lib, d, id, m, w, m', w', out) && !m.bootstrapped && out == Continue
    ensures Booted(w'.log, id)
  {
    var doc :| WroteAll(w, w', id, BootParams(lib, w.secret.value, m.providerID.value, doc));
    forall f: GuestField
      ensures Written(w'.log, id, GuestInfo(f))
    {
      BootKeys(lib, w.secret.value, m.providerID.value, doc, f);
      WroteAllWritten(w, w', id, BootParams(lib, w.secret.value, m.providerID.value, doc), GuestInfo(f));
    }
  }

  lemma {:induction false} AddressesFrame(lib: Lib, d: Desired, id: string, m: Record, w: World, m': Record, w': World, out: Outcome)
    requires AddressesStage(lib, d, id, m, w, m', w', out)
    ensures w' == w && m' == m.(addresses := m'.addresses, ready := m'.ready, provisioned := m'.provisioned)
    ensures m' == m || (m.addresses == [] && FoundAddresses(lib, d, w, id, m'))
  {
  }

  // The addresses of the record are what the guest of VM `id` reports.
  ghost predicate FoundAddresses(lib: Lib, d: Desired, w: World, id: string, m: Record) {
    && m.ready && m.provisioned
    && id in w.vms && !AnyMalformed(lib, Ethernets(d), w.vms[id].guest)
    && m.addresses == AllKept(lib, Ethernets(d), w.vms[id].guest) && |m.addresses| >= |Ethernets(d)|
  }
}
