/** Which slots new network adapters go to, what they leave alone, and what the next pass sees. */
module AdapterSlots {
  import opened Options
  import opened Api
  import opened Cloud
  import opened Folders
  import opened Adapters

  predicate Missing(list: seq<NetAdapter>, spec: seq<NetAdapter>, i: nat) {
    i < |spec| && Contains(list, spec[i]) == Some(false)
  }

  // The slots a pass writes to.
  function NewSlots(list: seq<NetAdapter>, spec: seq<NetAdapter>, start: nat, k: nat): set<nat>
    requires k <= |spec|
  {
    set i: nat | i < k && Missing(list, spec, i) :: start + i
  }

  function MissingCount(list: seq<NetAdapter>, spec: seq<NetAdapter>, k: nat): nat
    requires k <= |spec|
  {
    if k == 0 then 0 else MissingCount(list, spec, k - 1) + if Missing(list, spec, k - 1) then 1 else 0
  }

  function Below(n: nat): (slots: set<nat>)
    ensures |slots| == n
    ensures forall i: nat :: i in slots <==> i < n
  {
    if n == 0 then {} else Below(n - 1) + {n - 1}
  }

  /** Slots none of which reaches their number are exactly 0..N-1. */
  lemma {:induction false} ContiguousMeans(config: map<Key, string>)
    ensures Contiguous(config) <==> Occupied(config) == Below(|Occupied(config)|)
  {
    var n := |Occupied(config)|;
    if Contiguous(config) {
      assert Occupied(config) <= Below(n);
      SameSizeSubset(Occupied(config), Below(n));
    }
  }

  lemma {:induction false} NewSlotsCount(list: seq<NetAdapter>, spec: seq<NetAdapter>, start: nat, k: nat)
    requires k <= |spec|
    ensures |NewSlots(list, spec, start, k)| == MissingCount(list, spec, k)
    ensures forall slot :: slot in NewSlots(list, spec, start, k) ==> start <= slot < start + k
  {
    if k > 0 {
      NewSlotsCount(list, spec, start, k - 1);
      var before := NewSlots(list, spec, start, k - 1);
      assert NewSlots(list, spec, start, k) == if Missing(list, spec, k - 1) then before + {start + k - 1} else before;
    }
  }

  // The parameters, key by key: all five of each missing adapter, and no others.
  lemma {:induction false} ParamsMean(list: seq<NetAdapter>, spec: seq<NetAdapter>, start: nat, k: nat, slot: nat, field: EthernetField)
    requires k <= |spec|
    ensures var params := MissingParams(list, spec, start, k);
            EthernetKey(slot, field) in params <==> slot in NewSlots(list, spec, start, k)
    ensures var params := MissingParams(list, spec, start, k);
            EthernetKey(slot, field) in params ==>
              params[EthernetKey(slot, field)] == AdapterParams(slot, spec[slot - start])[EthernetKey(slot, field)]
  {
    if k > 0 {
      ParamsMean(list, spec, start, k - 1, slot, field);
      var one := AdapterParams(start + k - 1, spec[k - 1]);
      assert EthernetKey(slot, field) in one <==> slot == start + k - 1;
      assert slot in NewSlots(list, spec, start, k) <==>
        slot in NewSlots(list, spec, start, k - 1) || (Missing(list, spec, k - 1) && slot == start + k - 1);
      MissingSlots(list, spec, start, k - 1);
    }
  }

  lemma {:induction false} OccupiedAfter(config: map<Key, string>, list: seq<NetAdapter>, spec: seq<NetAdapter>, start: nat)
    ensures var params := MissingParams(list, spec, start, |spec|);
            Occupied(config + params) == Occupied(config) + NewSlots(list, spec, start, |spec|)
  {
    var params := MissingParams(list, spec, start, |spec|);
    forall slot: nat
      ensures slot in Occupied(config + params) <==> slot in Occupied(config) || slot in NewSlots(list, spec, start, |spec|)
    {
      ParamsMean(list, spec, start, |spec|, slot, Present);
      assert slot in Occupied(config) <==> EthernetKey(slot, Present) in config && config[EthernetKey(slot, Present)] == "TRUE";
      assert slot in Occupied(config + params) <==>
        EthernetKey(slot, Present) in config + params && (config + params)[EthernetKey(slot, Present)] == "TRUE";
    }
  }

  // An adapter in a slot the pass does not write to is untouched; one in a new slot is as asked for.
  lemma {:induction false} NicAfter(config: map<Key, string>, list: seq<NetAdapter>, spec: seq<NetAdapter>, start: nat, slot: nat)
    ensures var params := MissingParams(list, spec, start, |spec|);
            NicAt(config + params, slot) ==
              if slot in NewSlots(list, spec, start, |spec|) then
                NetAdapter(Some(spec[slot - start].kind.GetOr("")), Some(spec[slot - start].vmnet.GetOr("")), None)
              else NicAt(config, slot)
  {
    ParamsMean(list, spec, start, |spec|, slot, ConnectionType);
    ParamsMean(list, spec, start, |spec|, slot, Vnet);
  }

  /** What is written for a missing adapter: its type and network, its device or vmxnet3, present, with a generated address. */
  lemma {:induction false} NewAdapterKeys(list: seq<NetAdapter>, spec: seq<NetAdapter>, start: nat, i: nat)
    requires i < |spec| && Missing(list, spec, i) && Complete(spec[i])
    ensures var params := MissingParams(list, spec, start, |spec|);
            && Writes(params, EthernetKey(start + i, ConnectionType), spec[i].kind.value)
            && Writes(params, EthernetKey(start + i, Vnet), spec[i].vmnet.value)
            && Writes(params, EthernetKey(start + i, VirtualDev), if spec[i].virtualDev.Some? then spec[i].virtualDev.value else "vmxnet3")
            && Writes(params, EthernetKey(start + i, Present), "TRUE")
            && Writes(params, EthernetKey(start + i, AddressType), "generated")
  {
    IsNewSlot(list, spec, start, i);
    ParamsMean(list, spec, start, |spec|, start + i, ConnectionType);
    ParamsMean(list, spec, start, |spec|, start + i, Vnet);
    ParamsMean(list, spec, start, |spec|, start + i, VirtualDev);
    ParamsMean(list, spec, start, |spec|, start + i, Present);
    ParamsMean(list, spec, start, |spec|, start + i, AddressType);
  }

  predicate Writes(params: map<Key, string>, key: Key, value: string) {
    key in params && params[key] == value
  }

  /** A pass writes to a slot in use exactly if that slot is as far beyond the number of adapters as a missing one is down the spec. */
  lemma {:induction false} OverwritesExactly(config: map<Key, string>, list: seq<NetAdapter>, spec: seq<NetAdapter>, slot: nat)
    requires ListsNics(list, config) && slot in Occupied(config)
    ensures (exists field :: EthernetKey(slot, field) in MissingParams(list, spec, |list|, |spec|))
        <==> slot >= |Occupied(config)| && Missing(list, spec, slot - |Occupied(config)|)
  {
    forall field
      ensures EthernetKey(slot, field) in MissingParams(list, spec, |list|, |spec|) <==> slot in NewSlots(list, spec, |list|, |spec|)
    {
      ParamsMean(list, spec, |list|, |spec|, slot, field);
    }
    if slot >= |list| && Missing(list, spec, slot - |list|) {
      assert slot == |list| + (slot - |list|);
      assert EthernetKey(slot, Present) in MissingParams(list, spec, |list|, |spec|);
    }
  }

  /**
   With slots 0..N-1 in use, the new adapters go to distinct free slots from N on, those in use keep
   their adapter, and the number of adapters grows by that of the spec's missing ones.
   */
  lemma {:induction false} AdaptersAdded(config: map<Key, string>, list: seq<NetAdapter>, spec: seq<NetAdapter>)
    requires ListsNics(list, config) && Contiguous(config)
    ensures var config' := config + MissingParams(list, spec, |list|, |spec|);
            && |Occupied(config')| == |Occupied(config)| + MissingCount(list, spec, |spec|)
            && (forall slot :: slot in Occupied(config) ==> slot in Occupied(config') && NicAt(config', slot) == NicAt(config, slot))
            && (forall i :: 0 <= i < |spec| && Missing(list, spec, i) ==> |list| + i in Occupied(config') - Occupied(config))
  {
    var n := |list|;
    var config' := config + MissingParams(list, spec, n, |spec|);
    OccupiedAfter(config, list, spec, n);
    NewSlotsCount(list, spec, n, |spec|);
    assert Occupied(config) !! NewSlots(list, spec, n, |spec|);
    forall slot | slot in Occupied(config)
      ensures NicAt(config', slot) == NicAt(config, slot)
    {
      NicAfter(config, list, spec, n, slot);
    }
  }

  predicate MissingFirst(list: seq<NetAdapter>, spec: seq<NetAdapter>) {
    forall i, j :: 0 <= i < j < |spec| && Missing(list, spec, j) ==> Missing(list, spec, i)
  }

  lemma {:induction false} ContiguousIfMissingFirst(config: map<Key, string>, list: seq<NetAdapter>, spec: seq<NetAdapter>)
    requires ListsNics(list, config) && Contiguous(config) && MissingFirst(list, spec)
    ensures Contiguous(config + MissingParams(list, spec, |list|, |spec|))
  {
    var config' := config + MissingParams(list, spec, |list|, |spec|);
    OccupiedAfter(config, list, spec, |list|);
    AdaptersAdded(config, list, spec);
    forall slot | slot in Occupied(config')
      ensures slot < |Occupied(config')|
    {
      if slot in NewSlots(list, spec, |list|, |spec|) {
        AmongTheFirst(list, spec, slot);
      }
    }
  }

  lemma {:induction false} AmongTheFirst(list: seq<NetAdapter>, spec: seq<NetAdapter>, slot: nat)
    requires MissingFirst(list, spec) && slot in NewSlots(list, spec, |list|, |spec|)
    ensures slot < |list| + MissingCount(list, spec, |spec|)
  {
    PrefixMissing(list, spec, |spec|);
    assert Missing(list, spec, slot - |list|);
  }

  lemma {:induction false} IsNewSlot(list: seq<NetAdapter>, spec: seq<NetAdapter>, start: nat, i: nat)
    requires i < |spec|
    ensures start + i in NewSlots(list, spec, start, |spec|) <==> Missing(list, spec, i)
  {
  }

  lemma {:induction false} NoGap(list: seq<NetAdapter>, spec: seq<NetAdapter>, n: nat, total: nat, i: nat, j: nat)
    requires Below(n) + NewSlots(list, spec, n, |spec|) == Below(total)
    requires i < j < |spec| && Missing(list, spec, j)
    ensures Missing(list, spec, i)
  {
    IsNewSlot(list, spec, n, j);
    IsNewSlot(list, spec, n, i);
    assert n + j in Below(total);
    assert n + i in Below(total);
  }

  lemma {:induction false} MissingFirstIfContiguous(config: map<Key, string>, config': map<Key, string>,
                                                    list: seq<NetAdapter>, spec: seq<NetAdapter>)
    requires |list| == |Occupied(config)| && Contiguous(config) && Contiguous(config')
    requires Occupied(config') == Occupied(config) + NewSlots(list, spec, |list|, |spec|)
    ensures MissingFirst(list, spec)
  {
    ContiguousMeans(config);
    ContiguousMeans(config');
    forall i, j | 0 <= i < j < |spec| && Missing(list, spec, j)
      ensures Missing(list, spec, i)
    {
      NoGap(list, spec, |list|, |Occupied(config')|, i, j);
    }
  }

  /** Afterwards the slots in use are contiguous again exactly if no adapter of the spec that was there precedes a missing one. */
  lemma {:induction false} StaysContiguousExactly(config: map<Key, string>, list: seq<NetAdapter>, spec: seq<NetAdapter>)
    requires ListsNics(list, config) && Contiguous(config)
    ensures Contiguous(config + MissingParams(list, spec, |list|, |spec|)) <==> MissingFirst(list, spec)
  {
    var config' := config + MissingParams(list, spec, |list|, |spec|);
    if MissingFirst(list, spec) {
      ContiguousIfMissingFirst(config, list, spec);
    }
    if Contiguous(config') {
      OccupiedAfter(config, list, spec, |list|);
      MissingFirstIfContiguous(config, config', list, spec);
    }
  }

  // If the missing ones come first, they are as many as the first that are missing.
  lemma {:induction false} PrefixMissing(list: seq<NetAdapter>, spec: seq<NetAdapter>, k: nat)
    requires k <= |spec|
    ensures (forall i, j :: 0 <= i < j < k && Missing(list, spec, j) ==> Missing(list, spec, i)) ==>
      forall i :: 0 <= i < k && Missing(list, spec, i) ==> i < MissingCount(list, spec, k)
    ensures (forall i :: 0 <= i < k ==> Missing(list, spec, i)) ==> MissingCount(list, spec, k) == k
  {
    if k > 0 {
      PrefixMissing(list, spec, k - 1);
    }
  }

  /******* What the following passes see *******/

  predicate AllComplete(list: seq<NetAdapter>) {
    forall i :: 0 <= i < |list| ==> Complete(list[i])
  }

  // The VM has an adapter of this type and network.
  ghost predicate Held(config: map<Key, string>, a: NetAdapter) {
    exists slot :: slot in Occupied(config) && NicAt(config, slot).kind == a.kind && NicAt(config, slot).vmnet == a.vmnet
  }

  ghost predicate AllHeld(config: map<Key, string>, spec: seq<NetAdapter>) {
    forall i :: 0 <= i < |spec| ==> Held(config, spec[i])
  }

  lemma {:induction false} ListedIsComplete(list: seq<NetAdapter>, config: map<Key, string>)
    requires ListsNics(list, config)
    ensures AllComplete(list)
  {
    forall i | 0 <= i < |list|
      ensures Complete(list[i])
    {
      var slot :| slot in Occupied(config) && list[i] == NicAt(config, slot);
    }
  }

  // What the list contains, the VM holds.
  lemma {:induction false} ListedIsHeld(list: seq<NetAdapter>, config: map<Key, string>, a: NetAdapter)
    requires ListsNics(list, config) && Complete(a)
    ensures Contains(list, a) == Some(Held(config, a))
  {
    ListedIsComplete(list, config);
    ContainsMeans(list, a);
    if Held(config, a) {
      var slot :| slot in Occupied(config) && NicAt(config, slot).kind == a.kind && NicAt(config, slot).vmnet == a.vmnet;
      var i :| 0 <= i < |list| && list[i] == NicAt(config, slot);
      assert list[i].kind == a.kind && list[i].vmnet == a.vmnet;
    }
    if i :| 0 <= i < |list| && list[i].kind == a.kind && list[i].vmnet == a.vmnet {
      var slot :| slot in Occupied(config) && list[i] == NicAt(config, slot);
      assert Held(config, a);
    }
  }

  lemma {:induction false} AllListedAreHeld(list: seq<NetAdapter>, config: map<Key, string>, spec: seq<NetAdapter>)
    requires ListsNics(list, config) && AllComplete(spec)
    ensures AllContained(list, spec) != None
    ensures AllContained(list, spec) == Some(true) <==> AllHeld(config, spec)
  {
    if spec != [] {
      ListedIsHeld(list, config, spec[0]);
      var more := spec[1..];
      assert forall i :: 0 <= i < |more| ==> more[i] == spec[i + 1];
      AllListedAreHeld(list, config, more);
      assert AllHeld(config, spec) <==> Held(config, spec[0]) && AllHeld(config, more) by {
        assert forall i :: 0 < i < |spec| ==> spec[i] == more[i - 1];
      }
    }
  }

  lemma {:induction false} NothingMissing(list: seq<NetAdapter>, spec: seq<NetAdapter>, start: nat, k: nat)
    requires k <= |spec| && AllContained(list, spec) == Some(true)
    ensures MissingParams(list, spec, start, k) == map[]
  {
    AllContainedMeans(list, spec);
    if k > 0 {
      NothingMissing(list, spec, start, k - 1);
    }
  }

  lemma {:induction false} HeldStays(config: map<Key, string>, config': map<Key, string>, a: NetAdapter)
    requires Held(config, a)
    requires forall slot :: slot in Occupied(config) ==> slot in Occupied(config') && NicAt(config', slot) == NicAt(config, slot)
    ensures Held(config', a)
  {
    var slot :| slot in Occupied(config) && NicAt(config, slot).kind == a.kind && NicAt(config, slot).vmnet == a.vmnet;
    assert NicAt(config', slot) == NicAt(config, slot);
  }

  lemma {:induction false} MissingIsHeld(config: map<Key, string>, list: seq<NetAdapter>, spec: seq<NetAdapter>, i: nat)
    requires i < |spec| && Missing(list, spec, i) && Complete(spec[i])
    ensures Held(config + MissingParams(list, spec, |list|, |spec|), spec[i])
  {
    var config' := config + MissingParams(list, spec, |list|, |spec|);
    IsNewSlot(list, spec, |list|, i);
    OccupiedAfter(config, list, spec, |list|);
    NicAfter(config, list, spec, |list|, |list| + i);
    HeldAt(config', spec[i], |list| + i);
  }

  lemma {:induction false} HeldAt(config: map<Key, string>, a: NetAdapter, slot: nat)
    requires slot in Occupied(config) && NicAt(config, slot).kind == a.kind && NicAt(config, slot).vmnet == a.vmnet
    ensures Held(config, a)
  {
  }

  /** After a pass that wrote all missing adapters the VM holds all of the spec's. */
  lemma {:induction false} AllHeldAfter(config: map<Key, string>, list: seq<NetAdapter>, spec: seq<NetAdapter>)
    requires ListsNics(list, config) && Contiguous(config) && AllComplete(spec)
    ensures AllHeld(config + MissingParams(list, spec, |list|, |spec|), spec)
  {
    var config' := config + MissingParams(list, spec, |list|, |spec|);
    AdaptersAdded(config, list, spec);
    forall i | 0 <= i < |spec|
      ensures Held(config + MissingParams(list, spec, |list|, |spec|), spec[i])
    {
      ListedIsHeld(list, config, spec[i]);
      if Held(config, spec[i]) {
        HeldStays(config, config', spec[i]);
      } else {
        MissingIsHeld(config, list, spec, i);
      }
    }
  }

  lemma {:induction false} WroteNothingAtAll(w: World, w': World, id: string)
    requires WroteSome(w, w', id, map[])
    ensures w' == w
  {
    assert w'.log == w.log;
    WroteNothing(w, id, map[]);
  }

  /** With a VM that holds all of the spec's adapters the stage writes nothing; it may refresh the status, which then shows them. */
  lemma {:induction false} RefreshesOnly(d: Desired, id: string, m: Record, w: World, m': Record, w': World, out: Outcome)
    requires AdaptersStage(d, id, m, w, m', w', out)
    requires WantedAdapters(d).Some? && AllComplete(WantedAdapters(d).value) && AllComplete(m.adapters.GetOr([]))
    requires id in w.vms && AllHeld(w.vms[id].config, WantedAdapters(d).value)
    ensures w' == w
    ensures out == Continue || out == Requeue || (out == Error && !w.reliable)
    ensures out == Requeue ==> m'.adapters.Some? && AllContained(m'.adapters.value, WantedAdapters(d).value) == Some(true)
  {
    var spec := WantedAdapters(d).value;
    CompleteSpec(m.adapters.GetOr([]), spec);
    OneOfThree(AllContained(m.adapters.GetOr([]), spec));
    if AllContained(m.adapters.GetOr([]), spec) == Some(false) && !(out == Error && m' == m && w' == w) {
      var list := m'.adapters.value;
      AllListedAreHeld(list, w.vms[id].config, spec);
      NothingMissing(list, spec, |list|, |spec|);
      WroteNothingAtAll(w, w', id);
      NotTroubled(list, spec);
    }
  }

  lemma {:induction false} CompleteSpec(list: seq<NetAdapter>, spec: seq<NetAdapter>)
    requires AllComplete(list) && AllComplete(spec)
    ensures AllContained(list, spec) != None
  {
    if spec != [] {
      ContainsMeans(list, spec[0]);
      CompleteSpec(list, spec[1..]);
    }
  }

  lemma {:induction false} NotTroubled(list: seq<NetAdapter>, spec: seq<NetAdapter>)
    requires AllContained(list, spec) == Some(true)
    ensures forall i :: 0 <= i < |spec| ==> !Troubled(list, spec[i])
  {
    AllContainedMeans(list, spec);
  }

  /** Where no adapters are asked for, the stage writes none: it reads those of the VM, once. */
  lemma {:induction false} OnlyReadIfNoneWanted(d: Desired, id: string, m: Record, w: World, m': Record, w': World, out: Outcome)
    requires AdaptersStage(d, id, m, w, m', w', out) && (d.network.None? || d.network.value.adapters.None?)
    ensures w' == w && (out == Continue || (out == Error && m' == m && m.adapters.None? && !(w.reliable && id in w.vms)))
    ensures m.adapters.Some? ==> out == Continue && m' == m
    ensures m.adapters.None? && out == Continue ==>
      id in w.vms && m'.adapters.Some? && m' == m.(adapters := m'.adapters) && ListsNics(m'.adapters.value, w.vms[id].config)
  {
  }

  /**
   The pass that adds the missing adapters to a VM whose slots are contiguous is the last that
   writes any: if the configuration stays, the next pass at most refreshes the status.
   */
  lemma {:induction false} AddedOnce(d: Desired, id: string, m: Record, w: World, m1: Record, w1: World,
                                     m2: Record, w2: World, m3: Record, w3: World, out: Outcome)
    requires WantedAdapters(d).Some? && AllComplete(WantedAdapters(d).value) && AllComplete(m.adapters.GetOr([]))
    requires AdaptersStage(d, id, m, w, m1, w1, Requeue) && Contiguous(w.vms[id].config)
    requires m2.adapters.GetOr([]) == m1.adapters.GetOr([]) && id in w2.vms && w2.vms[id].config == w1.vms[id].config
    requires AdaptersStage(d, id, m2, w2, m3, w3, out)
    ensures AllHeld(w1.vms[id].config, WantedAdapters(d).value)
    ensures w3 == w2 && (out == Continue || out == Requeue || (out == Error && !w2.reliable))
    ensures out == Requeue ==> m3.adapters.Some? && AllContained(m3.adapters.value, WantedAdapters(d).value) == Some(true)
  {
    var spec, list := WantedAdapters(d).value, m1.adapters.value;
    AllHeldAfter(w.vms[id].config, list, spec);
    assert Only(MissingParams(list, spec, |list|, |spec|), MissingParams(list, spec, |list|, |spec|).Keys)
        == MissingParams(list, spec, |list|, |spec|);
    ListedIsComplete(list, w.vms[id].config);
    RefreshesOnly(d, id, m2, w2, m3, w3, out);
  }

  lemma {:induction false} OneOfThree(b: Option<bool>)
    ensures b == None || b == Some(true) || b == Some(false)
  {
    match b
    case None =>
    case Some(v) => assert v == true || v == false;
  }

  lemma {:induction false} TroubledMeans(list: seq<NetAdapter>, a: NetAdapter)
    requires AllComplete(list)
    ensures Troubled(list, a) <==> !Complete(a)
  {
    ContainsMeans(list, a);
    OneOfThree(Contains(list, a));
  }

  lemma {:induction false} IncompleteSpec(list: seq<NetAdapter>, spec: seq<NetAdapter>)
    requires AllComplete(list)
    ensures AllContained(list, spec) == Some(true) ==> AllComplete(spec)
    ensures AllContained(list, spec) == None ==> !AllComplete(spec)
  {
    AllContainedMeans(list, spec);
    forall i | 0 <= i < |spec|
      ensures Contains(list, spec[i]) == Some(true) ==> Complete(spec[i])
    {
      ContainsMeans(list, spec[i]);
    }
    if AllComplete(spec) {
      CompleteSpec(list, spec);
    }
  }

  /** Against a hypervisor that answers, the stage dies of a nil type or network exactly when the spec has such an adapter. */
  lemma {:induction false} AdaptersPanicExactly(d: Desired, id: string, m: Record, w: World, m': Record, w': World, out: Outcome)
    requires AdaptersStage(d, id, m, w, m', w', out) && w.reliable && id in w.vms && AllComplete(m.adapters.GetOr([]))
    ensures out == Panic <==> WantedAdapters(d).Some? && !AllComplete(WantedAdapters(d).value)
  {
    if WantedAdapters(d).Some? {
      var spec := WantedAdapters(d).value;
      IncompleteSpec(m.adapters.GetOr([]), spec);
      OneOfThree(AllContained(m.adapters.GetOr([]), spec));
      if AllContained(m.adapters.GetOr([]), spec) == Some(false) {
        ListedIsComplete(m'.adapters.value, w.vms[id].config);
        forall i | 0 <= i < |spec|
          ensures Troubled(m'.adapters.value, spec[i]) <==> !Complete(spec[i])
        {
          TroubledMeans(m'.adapters.value, spec[i]);
        }
      }
    }
  }

  /******* A pass cut short *******/

  // The slots whose "present" is among the parameters written.
  function Announced(params: map<Key, string>, written: set<Key>): set<nat> {
    set key | key in params && key in written && key.EthernetKey? && key.field == Present :: key.slot
  }

  // What a pass that wrote only these parameters leaves.
  function CutShort(config: map<Key, string>, list: seq<NetAdapter>, spec: seq<NetAdapter>, written: set<Key>): map<Key, string> {
    config + Only(MissingParams(list, spec, |list|, |spec|), written)
  }

  lemma {:induction false} InUse(config: map<Key, string>, slot: nat)
    ensures slot in Occupied(config) <==> EthernetKey(slot, Present) in config && config[EthernetKey(slot, Present)] == "TRUE"
  {
    assert EthernetKey(slot, Present).slot == slot;
  }

  lemma {:induction false} AnnouncedAt(params: map<Key, string>, written: set<Key>, slot: nat)
    ensures slot in Announced(params, written) <==> EthernetKey(slot, Present) in params && EthernetKey(slot, Present) in written
  {
    assert EthernetKey(slot, Present).slot == slot;
  }

  lemma {:induction false} SlotCutShort(config: map<Key, string>, list: seq<NetAdapter>, spec: seq<NetAdapter>, written: set<Key>, slot: nat)
    ensures slot in Occupied(CutShort(config, list, spec, written)) <==>
      slot in Occupied(config) || slot in Announced(MissingParams(list, spec, |list|, |spec|), written)
  {
    var params := MissingParams(list, spec, |list|, |spec|);
    InUse(config, slot);
    InUse(CutShort(config, list, spec, written), slot);
    AnnouncedAt(params, written, slot);
    ParamsMean(list, spec, |list|, |spec|, slot, Present);
  }

  lemma {:induction false} SlotsCutShort(config: map<Key, string>, list: seq<NetAdapter>, spec: seq<NetAdapter>, written: set<Key>)
    requires ListsNics(list, config) && Contiguous(config)
    ensures var slots := Announced(MissingParams(list, spec, |list|, |spec|), written);
            && Occupied(CutShort(config, list, spec, written)) == Occupied(config) + slots
            && Occupied(config) !! slots
  {
    MissingSlots(list, spec, |list|, |spec|);
    forall slot: nat
      ensures slot in Occupied(CutShort(config, list, spec, written)) <==>
        slot in Occupied(config) || slot in Announced(MissingParams(list, spec, |list|, |spec|), written)
    {
      SlotCutShort(config, list, spec, written, slot);
    }
  }

  // Slots in use before keep their adapter.
  lemma {:induction false} NicsCutShort(config: map<Key, string>, list: seq<NetAdapter>, spec: seq<NetAdapter>, written: set<Key>, slot: nat)
    requires slot < |list|
    ensures NicAt(CutShort(config, list, spec, written), slot) == NicAt(config, slot)
  {
    MissingSlots(list, spec, |list|, |spec|);
  }

  // What the VM held it still holds; and if no slot was announced, it holds no more.
  lemma {:induction false} HeldCutShort(config: map<Key, string>, list: seq<NetAdapter>, spec: seq<NetAdapter>, written: set<Key>, a: NetAdapter)
    requires ListsNics(list, config) && Contiguous(config)
    ensures Held(config, a) ==> Held(CutShort(config, list, spec, written), a)
    ensures Announced(MissingParams(list, spec, |list|, |spec|), written) == {} ==>
      (Held(CutShort(config, list, spec, written), a) ==> Held(config, a))
  {
    var config1 := CutShort(config, list, spec, written);
    SlotsCutShort(config, list, spec, written);
    forall slot | slot in Occupied(config)
      ensures slot in Occupied(config1) && NicAt(config1, slot) == NicAt(config, slot)
    {
      NicsCutShort(config, list, spec, written, slot);
    }
    if Held(config, a) {
      HeldStays(config, config1, a);
    }
    if Announced(MissingParams(list, spec, |list|, |spec|), written) == {} && Held(config1, a) {
      HeldStays(config1, config, a);
    }
  }

  lemma {:induction false} SameMissing(list: seq<NetAdapter>, list1: seq<NetAdapter>, spec: seq<NetAdapter>, start: nat, k: nat)
    requires k <= |spec| && forall i :: 0 <= i < k ==> (Missing(list, spec, i) <==> Missing(list1, spec, i))
    ensures MissingParams(list, spec, start, k) == MissingParams(list1, spec, start, k)
  {
    if k > 0 {
      SameMissing(list, list1, spec, start, k - 1);
      assert Missing(list, spec, k - 1) <==> Missing(list1, spec, k - 1);
    }
  }

  lemma {:induction false} MissingCutShort(config: map<Key, string>, list: seq<NetAdapter>, spec: seq<NetAdapter>, written: set<Key>,
                                           list1: seq<NetAdapter>, i: nat)
    requires ListsNics(list, config) && Contiguous(config) && AllComplete(spec) && i < |spec|
    requires ListsNics(list1, CutShort(config, list, spec, written))
    ensures Missing(list1, spec, i) ==> Missing(list, spec, i)
    ensures Announced(MissingParams(list, spec, |list|, |spec|), written) == {} && Missing(list, spec, i) ==> Missing(list1, spec, i)
  {
    ListedIsHeld(list, config, spec[i]);
    ListedIsHeld(list1, CutShort(config, list, spec, written), spec[i]);
    HeldCutShort(config, list, spec, written, spec[i]);
  }

  function FirstMissing(list: seq<NetAdapter>, spec: seq<NetAdapter>, k: nat): (i: nat)
    requires k <= |spec| && exists j :: 0 <= j < k && Missing(list, spec, j)
    ensures i < k && Missing(list, spec, i) && forall j :: 0 <= j < i ==> !Missing(list, spec, j)
  {
    if j :| 0 <= j < k - 1 && Missing(list, spec, j) then FirstMissing(list, spec, k - 1) else k - 1
  }

  // What an unhindered pass writes first lies below what the next one writes, once a slot was announced.
  lemma {:induction false} NotRewritten(config: map<Key, string>, list: seq<NetAdapter>, spec: seq<NetAdapter>, written: set<Key>,
                                        list1: seq<NetAdapter>, i: nat)
    requires ListsNics(list, config) && Contiguous(config) && AllComplete(spec) && i < |spec|
    requires ListsNics(list1, CutShort(config, list, spec, written)) && |list| < |list1|
    requires forall j :: 0 <= j < i ==> !Missing(list, spec, j)
    ensures EthernetKey(|list| + i, Present) !in MissingParams(list1, spec, |list1|, |spec|)
  {
    ParamsMean(list1, spec, |list1|, |spec|, |list| + i, Present);
    if |list| + i in NewSlots(list1, spec, |list1|, |spec|) {
      var j := |list| + i - |list1|;
      assert Missing(list1, spec, j);
      MissingCutShort(config, list, spec, written, list1, j);
    }
  }

  lemma {:induction false} FirstWritten(list: seq<NetAdapter>, spec: seq<NetAdapter>, i: nat)
    requires i < |spec| && Missing(list, spec, i)
    ensures EthernetKey(|list| + i, Present) in MissingParams(list, spec, |list|, |spec|)
  {
    IsNewSlot(list, spec, |list|, i);
    ParamsMean(list, spec, |list|, |spec|, |list| + i, Present);
  }

  lemma {:induction false} StartsHigher(config: map<Key, string>, list: seq<NetAdapter>, spec: seq<NetAdapter>, written: set<Key>,
                                        list1: seq<NetAdapter>)
    requires ListsNics(list, config) && Contiguous(config) && AllComplete(spec)
    requires ListsNics(list1, CutShort(config, list, spec, written)) && |list| < |list1|
    requires exists j :: 0 <= j < |spec| && Missing(list, spec, j)
    ensures MissingParams(list1, spec, |list1|, |spec|) != MissingParams(list, spec, |list|, |spec|)
  {
    var i := FirstMissing(list, spec, |spec|);
    FirstWritten(list, spec, i);
    NotRewritten(config, list, spec, written, list1, i);
  }

  lemma {:induction false} AnnouncedIsMissing(list: seq<NetAdapter>, spec: seq<NetAdapter>, written: set<Key>)
    requires Announced(MissingParams(list, spec, |list|, |spec|), written) != {}
    ensures exists j :: 0 <= j < |spec| && Missing(list, spec, j)
  {
    MissingSlots(list, spec, |list|, |spec|);
    var key :| key in MissingParams(list, spec, |list|, |spec|) && key in written;
    assert Missing(list, spec, key.slot - |list|);
  }

  lemma {:induction false} CountCutShort(config: map<Key, string>, list: seq<NetAdapter>, spec: seq<NetAdapter>, written: set<Key>,
                                         list1: seq<NetAdapter>)
    requires ListsNics(list, config) && Contiguous(config) && ListsNics(list1, CutShort(config, list, spec, written))
    ensures |list1| == |list| + |Announced(MissingParams(list, spec, |list|, |spec|), written)|
  {
    SlotsCutShort(config, list, spec, written);
  }

  lemma {:induction false} StillMissing(config: map<Key, string>, list: seq<NetAdapter>, spec: seq<NetAdapter>, written: set<Key>,
                                        list1: seq<NetAdapter>)
    requires ListsNics(list, config) && Contiguous(config) && AllComplete(spec)
    requires ListsNics(list1, CutShort(config, list, spec, written))
    requires Announced(MissingParams(list, spec, |list|, |spec|), written) == {}
    ensures forall i :: 0 <= i < |spec| ==> (Missing(list, spec, i) <==> Missing(list1, spec, i))
  {
    forall i | 0 <= i < |spec|
      ensures Missing(list, spec, i) <==> Missing(list1, spec, i)
    {
      MissingCutShort(config, list, spec, written, list1, i);
    }
  }

  lemma {:induction false} RetriedAlike(config: map<Key, string>, list: seq<NetAdapter>, spec: seq<NetAdapter>, written: set<Key>,
                                        list1: seq<NetAdapter>)
    requires ListsNics(list, config) && Contiguous(config) && AllComplete(spec)
    requires ListsNics(list1, CutShort(config, list, spec, written))
    requires Announced(MissingParams(list, spec, |list|, |spec|), written) == {}
    ensures MissingParams(list1, spec, |list1|, |spec|) == MissingParams(list, spec, |list|, |spec|)
  {
    CountCutShort(config, list, spec, written, list1);
    StillMissing(config, list, spec, written, list1);
    SameMissing(list, list1, spec, |list|, |spec|);
  }

  lemma {:induction false} WrittenOver(config: map<Key, string>, params: map<Key, string>, written: set<Key>)
    ensures config + Only(params, written) + params == config + params
  {
  }

  /**
   A pass cut short after some of its parameters: the next one counts as many adapters more as were
   announced by a "present" that got through.  It writes what an unhindered pass would have written,
   in the same slots, exactly if there was none, and then leaves the VM as that would have.
   */
  lemma {:induction false} CutShortHarmlessExactly(config: map<Key, string>, list: seq<NetAdapter>, spec: seq<NetAdapter>,
                                                   written: set<Key>, list1: seq<NetAdapter>)
    requires ListsNics(list, config) && Contiguous(config) && AllComplete(spec)
    requires ListsNics(list1, CutShort(config, list, spec, written))
    ensures var params, slots := MissingParams(list, spec, |list|, |spec|), Announced(MissingParams(list, spec, |list|, |spec|), written);
            && |list1| == |list| + |slots|
            && (MissingParams(list1, spec, |list1|, |spec|) == params <==> slots == {})
            && (slots == {} ==> CutShort(config, list, spec, written) + params == config + params)
  {
    var params := MissingParams(list, spec, |list|, |spec|);
    CountCutShort(config, list, spec, written, list1);
    WrittenOver(config, params, written);
    if Announced(params, written) == {} {
      RetriedAlike(config, list, spec, written, list1);
    } else {
      AnnouncedIsMissing(list, spec, written);
      StartsHigher(config, list, spec, written, list1);
    }
  }

  /**
   Pass by pass: after a pass that failed on the way, the next that gets through ends like one that
   was never interrupted if no "present" had been written.
   */
  lemma {:induction false} InterruptedPass(d: Desired, id: string, m: Record, w: World, m1: Record, w1: World,
                                           m2: Record, w2: World, m3: Record, w3: World)
    requires WantedAdapters(d).Some? && AllComplete(WantedAdapters(d).value)
    requires AdaptersStage(d, id, m, w, m1, w1, Error) && w1 != w && Contiguous(w.vms[id].config)
    requires id in w2.vms && w2.vms[id].config == w1.vms[id].config
    requires AdaptersStage(d, id, m2, w2, m3, w3, Requeue)
    ensures m1.adapters.Some? && m3.adapters.Some? && id in w.vms && id in w3.vms
    ensures var list, spec, written := m1.adapters.value, WantedAdapters(d).value, KeysSince(w1.log, |w.log|);
            Announced(MissingParams(list, spec, |list|, |spec|), written) == {} ==>
              w3.vms[id].config == w.vms[id].config + MissingParams(list, spec, |list|, |spec|)
  {
    var list, spec, written := m1.adapters.value, WantedAdapters(d).value, KeysSince(w1.log, |w.log|);
    var params3 := MissingParams(m3.adapters.value, spec, |m3.adapters.value|, |spec|);
    assert w2.vms[id].config == CutShort(w.vms[id].config, list, spec, written);
    assert Only(params3, params3.Keys) == params3;
    CutShortHarmlessExactly(w.vms[id].config, list, spec, written, m3.adapters.value);
  }

  lemma {:induction false} OneAnnounced()
    ensures var config := map[EthernetKey(0, Present) := "TRUE"];
            var empty := NetAdapter(Some(""), Some(""), None);
            Occupied(config) == {0} && NicAt(config, 0) == empty && ListsNics([empty], config)
  {
    var config := map[EthernetKey(0, Present) := "TRUE"];
    InUse(config, 0);
    assert [NetAdapter(Some(""), Some(""), None)][0] == NicAt(config, 0);
  }

  lemma {:induction false} OnlyAnnounced(a: NetAdapter)
    ensures CutShort(map[], [], [a], {EthernetKey(0, Present)}) == map[EthernetKey(0, Present) := "TRUE"]
  {
    assert MissingParams([], [a], 0, 0) == map[];
    assert MissingParams([], [a], 0, 1) == AdapterParams(0, a);
  }

  /** A "present" that got through alone: the adapter is written again, one slot on, and an empty one stays behind. */
  lemma {:induction false} EmptyAdapterStays(a: NetAdapter)
    requires Complete(a) && a.kind != Some("")
    ensures ListsNics([], map[])
    ensures var config1 := CutShort(map[], [], [a], {EthernetKey(0, Present)});
            var empty := NetAdapter(Some(""), Some(""), None);
            && ListsNics([empty], config1)
            && NicAt(config1 + MissingParams([empty], [a], 1, 1), 0) == empty
            && Occupied(config1 + MissingParams([empty], [a], 1, 1)) == {0, 1}
  {
    var config1 := CutShort(map[], [], [a], {EthernetKey(0, Present)});
    var list := [NetAdapter(Some(""), Some(""), None)];
    OneAnnounced();
    OnlyAnnounced(a);
    assert Contains(list, a) == Some(false);
    assert NewSlots(list, [a], 1, 1) == {1} by {
      IsNewSlot(list, [a], 1, 0);
    }
    OccupiedAfter(config1, list, [a], 1);
    NicAfter(config1, list, [a], 1, 0);
    assert Occupied(map[]) == {};
  }
}
