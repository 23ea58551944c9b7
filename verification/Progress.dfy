/** How far a machine is from rest, and how each stage of a pass brings it closer. */
module Progress {
  import opened Options
  import opened Api
  import opened Cloud
  import opened Lifecycle
  import opened Folders
  import opened FolderSync
  import opened Adapters
  import opened AdapterSlots
  import opened Claims
  import opened ClaimHistory
  import opened VncSettings
  import opened VncRounds
  import opened Bootstrap
  import opened Addresses
  import opened Frames
  import opened Quiescence

  /******* The rank: passes still needed, part by part *******/

  ghost function AdapterRank(d: Desired, m: Record, vm: VM): nat {
    var wanted := WantedAdapters(d);
    if wanted.None? || AllContained(m.adapters.GetOr([]), wanted.value) == Some(true) then 0
    else if AllHeld(vm.config, wanted.value) then 1
    else 2
  }

  ghost function ClaimRank(d: Desired, w: World): nat {
    |Refs(d.name, Ethernets(d)) - w.claims.Keys|
  }

  ghost function FolderRank(d: Desired, m: Record, vm: VM): nat {
    if SameFolders(d.folders, m.sharedFolders) || FoldersAgree(d.folders, vm.folders) then 0 else 1
  }

  function VncRank(m: Record): nat {
    if m.vncStatus.None? then 1 else 0
  }

  function PowerRank(m: Record, vm: VM): nat {
    if vm.power == PoweredOff then 2 else if m.ready then 0 else 1
  }

  ghost function VMRank(d: Desired, m: Record, w: World, vm: VM): nat {
    AdapterRank(d, m, vm) + ClaimRank(d, w) + FolderRank(d, m, vm) + VncRank(m) + PowerRank(m, vm)
  }

  // More than any machine with a VM can need: one pass for each distinct reference and seven more.
  function MostPasses(d: Desired): nat {
    |Refs(d.name, Ethernets(d))| + 7
  }

  ghost function Rank(d: Desired, m: Record, w: World): nat {
    if m.vmID.Some? && m.vmID.value in w.vms then VMRank(d, m, w, w.vms[m.vmID.value]) else MostPasses(d)
  }

  lemma {:induction false} RankBelowMost(d: Desired, m: Record, w: World)
    requires m.vmID.Some? && m.vmID.value in w.vms
    ensures Rank(d, m, w) < MostPasses(d)
  {
    SubsetIsSmaller(Refs(d.name, Ethernets(d)) - w.claims.Keys, Refs(d.name, Ethernets(d)));
  }

  /******* What is asked of the spec and of the outside world *******/

  // No read of a pointer the code expects to be set meets nil.
  ghost predicate WellFormed(d: Desired) {
    && d.network.Some?
    && (WantedAdapters(d).Some? ==> AllComplete(WantedAdapters(d).value))
    && forall k :: 0 <= k < |Ethernets(d)| && Ethernets(d)[k].ipamRef.Some? ==> Ethernets(d)[k].ipamRef.value.apiGroup.Some?
  }

  // Calls succeed, the upstream objects are there, and an address comes with its prefix.
  ghost predicate Responsive(d: Desired, w: World) {
    && w.reliable && w.upstream && w.secret.Some?
    && forall k :: 0 <= k < |Ethernets(d)| ==> !NoPrefix(FindAddress(w.addresses, d.name, Ethernets(d)[k]))
  }

  // The allocator has answered every claim made so far.
  ghost predicate ClaimsAnswered(d: Desired, w: World) {
    forall k :: 0 <= k < |Ethernets(d)| && ClaimName(d.name, Ethernets(d)[k]) in w.claims ==>
      Resolved(w.addresses, d.name, Ethernets(d)[k])
  }

  // The guest reports enough well-formed addresses.
  ghost predicate GuestReports(lib: Lib, d: Desired, vm: VM) {
    vm.guest != [] && !AnyMalformed(lib, Ethernets(d), vm.guest) && |AllKept(lib, Ethernets(d), vm.guest)| >= |Ethernets(d)|
  }

  // The VM's configuration shows every VNC setting of the spec, as long as it was not read yet.
  predicate VncReadable(m: Record, vm: VM) {
    m.vnc.Some? && m.vncStatus.None? ==> Shows(vm.config, m.vnc.value)
  }

  /******* What every pass keeps *******/

  ghost predicate NicsInOrder(d: Desired, vm: VM) {
    WantedAdapters(d).Some? ==> Contiguous(vm.config) || AllHeld(vm.config, WantedAdapters(d).value)
  }

  ghost predicate RecordInOrder(m: Record) {
    && AllComplete(m.adapters.GetOr([]))
    && (m.vnc.Some? ==> NoEmptyText(m.vnc.value))
    && (m.vnc.Some? && m.vncStatus.Some? ==> Comparable(m.vnc.value, m.vncStatus.value))
    && (m.addresses != [] ==> m.ready)
    && (m.vmID.Some? ==> m.providerID == Some(ProviderID(m.vmID.value)))
  }

  ghost predicate OnCourse(d: Desired, m: Record, w: World) {
    && !m.deleting && RecordInOrder(m)
    && (m.vmID.Some? ==> m.vmID.value in w.vms && NicsInOrder(d, w.vms[m.vmID.value]))
  }

  /******* Configuration keys of one kind do not touch the others *******/

  ghost predicate SameNicKeys(config: map<Key, string>, config': map<Key, string>) {
    forall slot, field ::
      && (EthernetKey(slot, field) in config <==> EthernetKey(slot, field) in config')
      && (EthernetKey(slot, field) in config ==> config[EthernetKey(slot, field)] == config'[EthernetKey(slot, field)])
  }

  lemma {:induction false} SameNics(d: Desired, m: Record, vm: VM, vm': VM)
    requires SameNicKeys(vm.config, vm'.config)
    ensures NicsInOrder(d, vm) == NicsInOrder(d, vm') && AdapterRank(d, m, vm) == AdapterRank(d, m, vm')
    ensures Occupied(vm.config) == Occupied(vm'.config)
  {
    SameSlots(vm.config, vm'.config);
    if WantedAdapters(d).Some? {
      var spec := WantedAdapters(d).value;
      forall i | 0 <= i < |spec|
        ensures Held(vm.config, spec[i]) == Held(vm'.config, spec[i])
      {
        if Held(vm.config, spec[i]) {
          SameHeld(vm.config, vm'.config, spec[i]);
        }
        if Held(vm'.config, spec[i]) {
          SameHeld(vm'.config, vm.config, spec[i]);
        }
      }
    }
  }

  lemma {:induction false} SameSlots(config: map<Key, string>, config': map<Key, string>)
    requires SameNicKeys(config, config')
    ensures Occupied(config) == Occupied(config')
    ensures forall slot: nat :: NicAt(config, slot) == NicAt(config', slot)
  {
    forall slot: nat
      ensures slot in Occupied(config) <==> slot in Occupied(config')
      ensures NicAt(config, slot) == NicAt(config', slot)
    {
      assert slot in Occupied(config) <==> EthernetKey(slot, Present) in config && config[EthernetKey(slot, Present)] == "TRUE";
      assert slot in Occupied(config') <==> EthernetKey(slot, Present) in config' && config'[EthernetKey(slot, Present)] == "TRUE";
      assert Lookup(config, EthernetKey(slot, ConnectionType)) == Lookup(config', EthernetKey(slot, ConnectionType));
    }
  }

  lemma {:induction false} SameHeld(config: map<Key, string>, config': map<Key, string>, a: NetAdapter)
    requires SameNicKeys(config, config') && Held(config, a)
    ensures Held(config', a)
  {
    SameSlots(config, config');
    var slot :| slot in Occupied(config) && NicAt(config, slot).kind == a.kind && NicAt(config, slot).vmnet == a.vmnet;
    assert NicAt(config', slot) == NicAt(config, slot);
  }

  lemma {:induction false} NotNicKeys(config: map<Key, string>, params: map<Key, string>)
    requires forall key :: key in params ==> !key.EthernetKey?
    ensures SameNicKeys(config, config + params)
  {
  }

  /******* One stage after the other *******/

  // The stage loses nothing; where it is `eager`, having nobody to wait for, it asks for another
  // pass only after it brought the machine closer to rest.
  ghost predicate Proceeds(eager: bool, d: Desired, m: Record, w: World, m': Record, w': World, out: Outcome) {
    && OnCourse(d, m', w') && m'.vmID == m.vmID
    && (out == Continue || out == Requeue)
    && Rank(d, m', w') <= Rank(d, m, w)
    && (eager && out == Requeue ==> Rank(d, m', w') < Rank(d, m, w))
  }

  ghost predicate Advances(d: Desired, m: Record, w: World, m': Record, w': World, out: Outcome) {
    Proceeds(true, d, m, w, m', w', out)
  }

  lemma {:induction false} HardwareAdvances(d: Desired, id: string, m: Record, w: World, m': Record, w': World, out: Outcome)
    requires OnCourse(d, m, w) && m.vmID == Some(id) && w.reliable && HardwareStage(d, id, m, w, m', w', out)
    ensures Advances(d, m, w, m', w', out) && out == Continue
    ensures w'.vms[id].config == w.vms[id].config
  {
    HardwareFrame(d, id, m, w, m', w', out);
    SameNics(d, m, w.vms[id], w'.vms[id]);
    assert AdapterRank(d, m', w'.vms[id]) == AdapterRank(d, m, w'.vms[id]);
    SettingsAdvance(d, id, m, w, m', w', out);
  }

  // Put together: a stage that changed only the VM's settings and its own part of the record.
  lemma {:induction false} SettingsAdvance(d: Desired, id: string, m: Record, w: World, m': Record, w': World, out: Outcome)
    requires OnCourse(d, m, w) && m.vmID == Some(id) && m'.vmID == Some(id) && !m'.deleting && RecordInOrder(m')
    requires id in w'.vms && w'.claims == w.claims && w'.vms[id].power == w.vms[id].power && m'.ready == m.ready
    requires NicsInOrder(d, w'.vms[id]) && (out == Continue || out == Requeue)
    requires AdapterRank(d, m', w'.vms[id]) <= AdapterRank(d, m, w.vms[id])
    requires FolderRank(d, m', w'.vms[id]) <= FolderRank(d, m, w.vms[id])
    requires VncRank(m') <= VncRank(m)
    requires out == Requeue ==>
      || AdapterRank(d, m', w'.vms[id]) < AdapterRank(d, m, w.vms[id])
      || FolderRank(d, m', w'.vms[id]) < FolderRank(d, m, w.vms[id])
      || VncRank(m') < VncRank(m)
    ensures Advances(d, m, w, m', w', out)
  {
  }

  // The refresh brings the adapters' part of the rank down.
  lemma {:induction false} RefreshAdvances(d: Desired, id: string, m: Record, w: World, m': Record, w': World, out: Outcome)
    requires OnCourse(d, m, w) && m.vmID == Some(id) && w.reliable && WellFormed(d) && WantedAdapters(d).Some?
    requires AllContained(m.adapters.GetOr([]), WantedAdapters(d).value) == Some(false)
    requires AdaptersStage(d, id, m, w, m', w', out)
    ensures out == Requeue && id in w'.vms && NicsInOrder(d, w'.vms[id]) && AllComplete(m'.adapters.GetOr([]))
    ensures AdapterRank(d, m', w'.vms[id]) < AdapterRank(d, m, w.vms[id])
  {
    var spec, config := WantedAdapters(d).value, w.vms[id].config;
    AdaptersPanicExactly(d, id, m, w, m', w', out);
    var list := m'.adapters.value;
    ListedIsComplete(list, config);
    if AllHeld(config, spec) {
      RefreshesOnly(d, id, m, w, m', w', out);
    } else {
      AllHeldAfter(config, list, spec);
      ConfigAfter(w, w', id, MissingParams(list, spec, |list|, |spec|));
    }
  }

  lemma {:induction false} AdaptersAdvance(d: Desired, id: string, m: Record, w: World, m': Record, w': World, out: Outcome)
    requires OnCourse(d, m, w) && m.vmID == Some(id) && w.reliable && WellFormed(d) && AdaptersStage(d, id, m, w, m', w', out)
    ensures Advances(d, m, w, m', w', out)
  {
    AdaptersFrame(d, id, m, w, m', w', out);
    AdapterPart(d, id, m, w, m', w', out);
    SettingsAdvance(d, id, m, w, m', w', out);
  }

  lemma {:induction false} AdapterPart(d: Desired, id: string, m: Record, w: World, m': Record, w': World, out: Outcome)
    requires OnCourse(d, m, w) && m.vmID == Some(id) && w.reliable && WellFormed(d) && AdaptersStage(d, id, m, w, m', w', out)
    ensures id in w'.vms && AllComplete(m'.adapters.GetOr([])) && NicsInOrder(d, w'.vms[id])
    ensures AdapterRank(d, m', w'.vms[id]) <= AdapterRank(d, m, w.vms[id])
    ensures out == Continue || (out == Requeue && AdapterRank(d, m', w'.vms[id]) < AdapterRank(d, m, w.vms[id]))
  {
    var wanted, held := WantedAdapters(d), m.adapters.GetOr([]);
    if wanted.Some? {
      CompleteSpec(held, wanted.value);
      OneOfThree(AllContained(held, wanted.value));
      if AllContained(held, wanted.value) == Some(false) {
        RefreshAdvances(d, id, m, w, m', w', out);
      }
    } else if m.adapters.None? {
      ListedIsComplete(m'.adapters.value, w.vms[id].config);
    }
  }

  lemma {:induction false} ClaimsProceed(eager: bool, d: Desired, id: string, m: Record, w: World, m': Record, w': World, out: Outcome)
    requires OnCourse(d, m, w) && m.vmID == Some(id) && w.reliable && WellFormed(d) && (eager ==> ClaimsAnswered(d, w))
    requires ClaimsStage(d, m, w, m', w', out)
    ensures Proceeds(eager, d, m, w, m', w', out)
    ensures out == Continue ==> ClaimsAtRest(d, w')
  {
    ClaimsFrame(d, m, w, m', w', out);
    ClaimsAnswer(d, m, w, m', w', out);
    FewerUnclaimed(d, m, w, m', w', out);
    OnlyClaims(eager, d, id, m, w, w', out);
  }

  lemma {:induction false} ClaimsAnswer(d: Desired, m: Record, w: World, m': Record, w': World, out: Outcome)
    requires ClaimsStage(d, m, w, m', w', out) && w.reliable && WellFormed(d)
    ensures out == Continue || out == Requeue
  {
    ClaimsPanicExactly(d, m, w, m', w', out);
  }

  lemma {:induction false} OnlyClaims(eager: bool, d: Desired, id: string, m: Record, w: World, w': World, out: Outcome)
    requires OnCourse(d, m, w) && m.vmID == Some(id) && w' == w.(claims := w'.claims, claimLog := w'.claimLog)
    requires out == Continue || out == Requeue
    requires ClaimRank(d, w') <= ClaimRank(d, w) && (eager && out == Requeue ==> ClaimRank(d, w') < ClaimRank(d, w))
    ensures Proceeds(eager, d, m, w, m, w', out)
  {
  }

  // What the stage claimed is claimed; a pass that waits although every claim was answered made a new one.
  lemma {:induction false} FewerUnclaimed(d: Desired, m: Record, w: World, m': Record, w': World, out: Outcome)
    requires ClaimsStage(d, m, w, m', w', out) && (out == Continue || out == Requeue)
    ensures ClaimRank(d, w') <= ClaimRank(d, w)
    ensures out == Requeue && ClaimsAnswered(d, w) ==> ClaimRank(d, w') < ClaimRank(d, w)
    ensures out == Continue ==> ClaimsAtRest(d, w')
  {
    var es := Ethernets(d);
    var refs, stop := Refs(d.name, es), FirstUnresolved(w.addresses, d.name, es);
    ClaimedUpToFirstUnresolved(d, m, w, m', w', out);
    SubsetIsSmaller(refs - w'.claims.Keys, refs - w.claims.Keys);
    if out == Requeue && ClaimsAnswered(d, w) {
      var reached := es[..stop + 1];
      assert reached[stop] == es[stop];
      OneClaimLess(refs, w.claims.Keys, w'.claims.Keys, ClaimName(d.name, es[stop]));
    }
  }

  // A pass of the stage that asked to be run again.
  datatype Round = Round(m: Record, before: World, after: World)

  // Such passes one after the other; before each the allocator had answered the claims made so far,
  // and nobody takes claims back.
  ghost predicate Requeuing(d: Desired, rounds: seq<Round>) {
    && (forall k :: 0 <= k < |rounds| ==>
          ClaimsStage(d, rounds[k].m, rounds[k].before, rounds[k].m, rounds[k].after, Requeue) && ClaimsAnswered(d, rounds[k].before))
    && forall k :: 0 <= k < |rounds| - 1 ==> rounds[k].after.claims.Keys <= rounds[k + 1].before.claims.Keys
  }

  /** With an allocator that answers, the stage asks to be run again at most once for each distinct reference without a claim. */
  lemma {:induction false} RequeuesBounded(d: Desired, rounds: seq<Round>)
    requires Requeuing(d, rounds)
    ensures rounds != [] ==> |rounds| + ClaimRank(d, rounds[|rounds| - 1].after) <= ClaimRank(d, rounds[0].before)
    ensures |rounds| <= |Refs(d.name, Ethernets(d))|
  {
    if rounds != [] {
      var n := |rounds| - 1;
      var last, refs := rounds[n], Refs(d.name, Ethernets(d));
      RequeuesBounded(d, rounds[..n]);
      FewerUnclaimed(d, last.m, last.before, last.m, last.after, Requeue);
      if n > 0 {
        SubsetIsSmaller(refs - last.before.claims.Keys, refs - rounds[n - 1].after.claims.Keys);
      }
      SubsetIsSmaller(refs - rounds[0].before.claims.Keys, refs);
    }
  }

  lemma {:induction false} OneClaimLess(refs: set<string>, claims: set<string>, more: set<string>, name: string)
    requires claims <= more && name in refs && name !in claims && name in more
    ensures |refs - more| < |refs - claims|
  {
    SubsetIsSmaller(refs - more, refs - claims - {name});
  }

  lemma {:induction false} FoldersAdvance(d: Desired, id: string, m: Record, w: World, m': Record, w': World, out: Outcome)
    requires OnCourse(d, m, w) && m.vmID == Some(id) && w.reliable && FoldersStage(d, id, m, w, m', w', out)
    ensures Advances(d, m, w, m', w', out)
    ensures id in w'.vms && w'.vms[id].config == w.vms[id].config
  {
    FoldersFrame(d, id, m, w, m', w', out);
    RequeueMeansRepaired(d, id, m, w, m', w', out);
    FolderPart(d, id, m, w, m', w', out);
    SameNics(d, m, w.vms[id], w'.vms[id]);
    SettingsAdvance(d, id, m, w, m', w', out);
  }

  lemma {:induction false} FolderPart(d: Desired, id: string, m: Record, w: World, m': Record, w': World, out: Outcome)
    requires FoldersStage(d, id, m, w, m', w', out) && w.reliable && id in w.vms
    ensures id in w'.vms && w'.vms[id].config == w.vms[id].config
    ensures FolderRank(d, m', w'.vms[id]) <= FolderRank(d, m, w.vms[id])
    ensures out == Requeue ==> FolderRank(d, m', w'.vms[id]) < FolderRank(d, m, w.vms[id])
  {
    RequeueMeansRepaired(d, id, m, w, m', w', out);
    if out == Continue && m' != m {
      ReadingTells(d.folders, m'.sharedFolders, w.vms[id].folders);
    }
  }

  lemma {:induction false} VncAdvances(d: Desired, id: string, m: Record, w: World, m': Record, w': World, out: Outcome)
    requires OnCourse(d, m, w) && m.vmID == Some(id) && w.reliable && VncReadable(m, w.vms[id])
    requires VncStage(d, id, m, w, m', w', out)
    ensures Advances(d, m, w, m', w', out)
    ensures out == Continue ==> VncAtRest(m')
  {
    VncFrame(d, id, m, w, m', w', out);
    VncPart(d, id, m, w, m', w', out);
    SameNics(d, m, w.vms[id], w'.vms[id]);
    SettingsAdvance(d, id, m, w, m', w', out);
  }

  lemma {:induction false} VncPart(d: Desired, id: string, m: Record, w: World, m': Record, w': World, out: Outcome)
    requires RecordInOrder(m) && id in w.vms && w.reliable && VncReadable(m, w.vms[id])
    requires VncStage(d, id, m, w, m', w', out)
    ensures id in w'.vms && SameNicKeys(w.vms[id].config, w'.vms[id].config) && RecordInOrder(m')
    ensures out == Continue || (out == Requeue && VncRank(m') < VncRank(m))
    ensures out == Continue ==> VncAtRest(m')
  {
    if m.vncStatus.Some? && m.vnc.Some? && !Agrees(m.vnc.value, m.vncStatus.value) {
      SettingsRead(id, m, w, m', w', out);
    }
  }

  lemma {:induction false} SettingsRead(id: string, m: Record, w: World, m': Record, w': World, out: Outcome)
    requires RecordInOrder(m) && m.vnc.Some? && id in w.vms && w.reliable && VncWritten(id, m, w, m', w', out)
    ensures out == Continue && id in w'.vms && SameNicKeys(w.vms[id].config, w'.vms[id].config)
    ensures RecordInOrder(m') && VncAtRest(m')
  {
    FilledIsFull(m.vnc.value, m'.vnc.value);
    var params := VncParams(m'.vnc.value);
    ConfigAfter(w, w', id, params);
    ParamsOfVnc(m'.vnc.value);
    NotNicKeys(w.vms[id].config, params);
    ReadsWhatWasWritten(w.vms[id].config, m'.vnc.value);
  }

  lemma {:induction false} BootWritten(lib: Lib, d: Desired, id: string, m: Record, w: World, m': Record, w': World, out: Outcome)
    requires BootstrapStage(lib, d, id, m, w, m', w', out) && out == Continue && id in w.vms
    ensures id in w'.vms && SameNicKeys(w.vms[id].config, w'.vms[id].config)
  {
    if !m.bootstrapped {
      var doc :| WroteAll(w, w', id, BootParams(lib, w.secret.value, m.providerID.value, doc));
      var params := BootParams(lib, w.secret.value, m.providerID.value, doc);
      ConfigAfter(w, w', id, params);
      assert forall key :: key in params ==> key.GuestInfo?;
      NotNicKeys(w.vms[id].config, params);
    }
  }

  lemma {:induction false} BootSucceeds(lib: Lib, d: Desired, id: string, m: Record, w: World, m': Record, w': World, out: Outcome)
    requires RecordInOrder(m) && m.vmID == Some(id) && id in w.vms && WellFormed(d) && Responsive(d, w)
    requires BootstrapStage(lib, d, id, m, w, m', w', out)
    ensures out == Continue
  {
  }

  lemma {:induction false} BootAdvances(lib: Lib, d: Desired, id: string, m: Record, w: World, m': Record, w': World, out: Outcome)
    requires OnCourse(d, m, w) && m.vmID == Some(id) && WellFormed(d) && Responsive(d, w)
    requires BootstrapStage(lib, d, id, m, w, m', w', out)
    ensures Advances(d, m, w, m', w', out) && out == Continue && m'.bootstrapped
  {
    BootSucceeds(lib, d, id, m, w, m', w', out);
    BootFrame(lib, d, id, m, w, m', w', out);
    BootWritten(lib, d, id, m, w, m', w', out);
    SameNics(d, m, w.vms[id], w'.vms[id]);
    SettingsAdvance(d, id, m, w, m', w', out);
  }

  lemma {:induction false} PowerAdvances(d: Desired, id: string, m: Record, w: World, m': Record, w': World, out: Outcome)
    requires OnCourse(d, m, w) && m.vmID == Some(id) && w.reliable && m.state == Some(w.vms[id].power)
    requires PowerStage(id, m, w, m', w', out)
    ensures Advances(d, m, w, m', w', out) && out == Continue
    ensures m'.state == Some(w'.vms[id].power) && w'.vms[id].power != PoweredOff
    ensures w.vms[id].power == PoweredOff ==> Rank(d, m', w') < Rank(d, m, w)
    ensures w.vms[id].power != PoweredOff ==> m' == m && w' == w
  {
    if w.vms[id].power == PoweredOff {
      var vm, vm' := w.vms[id], w'.vms[id];
      SameNics(d, m, vm, vm');
      assert AdapterRank(d, m', vm') == AdapterRank(d, m, vm') && FolderRank(d, m', vm') == FolderRank(d, m, vm);
    }
  }

  lemma {:induction false} AddressesFound(lib: Lib, d: Desired, id: string, m: Record, w: World, m': Record, w': World, out: Outcome)
    requires OnCourse(d, m, w) && m.vmID == Some(id) && w.reliable && WellFormed(d)
    requires AddressesStage(lib, d, id, m, w, m', w', out)
    ensures w' == w && OnCourse(d, m', w) && m'.vmID == m.vmID
    ensures out != Panic && (out != Continue ==> m' == m && !GuestReports(lib, d, w.vms[id]))
    ensures out == Continue ==> m'.ready && (Ethernets(d) != [] ==> m'.addresses != [])
    ensures out == Continue ==> m' == m.(addresses := m'.addresses, ready := m'.ready, provisioned := m'.provisioned)
  {
  }
}
