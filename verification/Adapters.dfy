/** Network adapters: refresh the list, then write the missing ones to slots after those in use. */
module Adapters {
  import opened Options
  import opened Api
  import opened Cloud

  predicate Complete(a: NetAdapter) {
    a.kind.Some? && a.vmnet.Some?
  }

  // Equality of two adapters by type and network; None where a nil field is read.
  function Same(a: NetAdapter, b: NetAdapter): Option<bool> {
    if a.kind.None? || b.kind.None? then None
    else if a.kind != b.kind then Some(false)
    else if a.vmnet.None? || b.vmnet.None? then None
    else Some(a.vmnet == b.vmnet)
  }

  function Contains(list: seq<NetAdapter>, a: NetAdapter): Option<bool> {
    if list == [] then Some(false)
    else if Same(list[0], a) == Some(false) then Contains(list[1..], a)
    else Same(list[0], a)
  }

  lemma {:induction false} ContainsMeans(list: seq<NetAdapter>, a: NetAdapter)
    requires forall i :: 0 <= i < |list| ==> Complete(list[i])
    ensures Complete(a) ==>
      Contains(list, a) == Some(exists i :: 0 <= i < |list| && list[i].kind == a.kind && list[i].vmnet == a.vmnet)
    ensures !Complete(a) ==> Contains(list, a) != Some(true)
  {
    if list != [] {
      ContainsMeans(list[1..], a);
      if exists i :: 0 <= i < |list[1..]| && list[1..][i].kind == a.kind && list[1..][i].vmnet == a.vmnet {
        var i :| 0 <= i < |list[1..]| && list[1..][i].kind == a.kind && list[1..][i].vmnet == a.vmnet;
        assert list[i + 1] == list[1..][i];
      }
      if exists i :: 0 < i < |list| && list[i].kind == a.kind && list[i].vmnet == a.vmnet {
        var i :| 0 < i < |list| && list[i].kind == a.kind && list[i].vmnet == a.vmnet;
        assert list[1..][i - 1] == list[i];
      }
    }
  }

  // Two adapters whose types, or else networks, are set and differ.
  predicate Apart(a: NetAdapter, b: NetAdapter) {
    && a.kind.Some? && b.kind.Some?
    && (a.kind.value != b.kind.value || (a.vmnet.Some? && b.vmnet.Some? && a.vmnet.value != b.vmnet.value))
  }

  // Two adapters whose types and networks are set and agree.
  predicate Alike(a: NetAdapter, b: NetAdapter) {
    && a.kind.Some? && b.kind.Some? && a.kind.value == b.kind.value
    && a.vmnet.Some? && b.vmnet.Some? && a.vmnet.value == b.vmnet.value
  }

  /** The search stops at the first entry that is not set apart: it has found the adapter if that is alike, and else reads nil. */
  lemma {:induction false} ContainsExactly(list: seq<NetAdapter>, a: NetAdapter)
    ensures Contains(list, a) == Some(false) <==> forall i :: 0 <= i < |list| ==> Apart(list[i], a)
    ensures Contains(list, a) == Some(true) <==>
      exists i :: 0 <= i < |list| && Alike(list[i], a) && forall j :: 0 <= j < i ==> Apart(list[j], a)
    ensures Contains(list, a) == None <==>
      exists i :: 0 <= i < |list| && !Alike(list[i], a) && !Apart(list[i], a) && forall j :: 0 <= j < i ==> Apart(list[j], a)
  {
    if list != [] {
      var rest := list[1..];
      ContainsExactly(rest, a);
      assert forall i :: 0 <= i < |rest| ==> rest[i] == list[i + 1];
      assert forall i :: 0 < i < |list| ==> list[i] == rest[i - 1];
    }
  }

  // Whether every adapter of `spec` is in `list`, looking from the first; None on a nil read.
  function AllContained(list: seq<NetAdapter>, spec: seq<NetAdapter>): Option<bool> {
    if spec == [] then Some(true)
    else if Contains(list, spec[0]) == Some(true) then AllContained(list, spec[1..])
    else Contains(list, spec[0])
  }

  method ContainsAll(list: seq<NetAdapter>, spec: seq<NetAdapter>) returns (r: Option<bool>)
    ensures r == AllContained(list, spec)
  {
    for i := 0 to |spec|
      invariant AllContained(list, spec) == AllContained(list, spec[i..])
    {
      r := Contains(list, spec[i]);
      if r != Some(true) {
        return;
      }
      assert spec[i..][1..] == spec[i + 1..];
    }
    return Some(true);
  }

  lemma {:induction false} AllContainedMeans(list: seq<NetAdapter>, spec: seq<NetAdapter>)
    ensures AllContained(list, spec) == Some(true) <==>
      forall i :: 0 <= i < |spec| ==> Contains(list, spec[i]) == Some(true)
  {
    if spec != [] {
      AllContainedMeans(list, spec[1..]);
      assert forall i :: 0 < i < |spec| ==> spec[i] == spec[1..][i - 1];
    }
  }

  /** The first adapter not in the list decides: either it is missing, or the search for it reads nil. */
  lemma {:induction false} AllContainedExactly(list: seq<NetAdapter>, spec: seq<NetAdapter>, answer: Option<bool>)
    requires answer != Some(true)
    ensures AllContained(list, spec) == answer <==>
      exists i :: 0 <= i < |spec| && Contains(list, spec[i]) == answer && forall j :: 0 <= j < i ==> Contains(list, spec[j]) == Some(true)
  {
    if spec != [] {
      var rest := spec[1..];
      AllContainedExactly(list, rest, answer);
      assert forall i :: 0 <= i < |rest| ==> rest[i] == spec[i + 1];
      assert forall i :: 0 < i < |spec| ==> spec[i] == rest[i - 1];
    }
  }

  function AdapterParams(slot: nat, a: NetAdapter): map<Key, string> {
    map[EthernetKey(slot, ConnectionType) := a.kind.GetOr(""),
        EthernetKey(slot, VirtualDev) := a.virtualDev.GetOr("vmxnet3"),
        EthernetKey(slot, Vnet) := a.vmnet.GetOr(""),
        EthernetKey(slot, Present) := "TRUE",
        EthernetKey(slot, AddressType) := "generated"]
  }

  // The parameters for the adapters among the first `k` of `spec` that `list` lacks.
  function MissingParams(list: seq<NetAdapter>, spec: seq<NetAdapter>, start: nat, k: nat): map<Key, string>
    requires k <= |spec|
  {
    if k == 0 then map[]
    else if Contains(list, spec[k - 1]) == Some(false) then
      MissingParams(list, spec, start, k - 1) + AdapterParams(start + k - 1, spec[k - 1])
    else MissingParams(list, spec, start, k - 1)
  }

  // The write loop stops at such an adapter with a nil dereference.
  predicate Troubled(list: seq<NetAdapter>, a: NetAdapter) {
    Contains(list, a) == None || (Contains(list, a) == Some(false) && !Complete(a))
  }

  ghost predicate AdaptersStage(d: Desired, id: string, m: Record, w: World, m': Record, w': World, out: Outcome) {
    var wanted := WantedAdapters(d);
    var held := m.adapters.GetOr([]);
    if if wanted.Some? then AllContained(held, wanted.value) == Some(true) else m.adapters.Some? then
      out == Continue && m' == m && w' == w
    else if wanted.Some? && AllContained(held, wanted.value) == None then
      out == Panic && m' == m && w' == w
    else
      AdaptersRefreshed(d, id, m, w, m', w', out)
  }

  ghost predicate AdaptersRefreshed(d: Desired, id: string, m: Record, w: World, m': Record, w': World, out: Outcome) {
    var wanted := WantedAdapters(d);
    if out == Error && m' == m && w' == w then
      !(w.reliable && id in w.vms)
    else
      && id in w.vms
      && m'.adapters.Some? && m' == m.(adapters := m'.adapters)
      && ListsNics(m'.adapters.value, w.vms[id].config)
      && if wanted.None? then out == Continue && w' == w else AdapterWrites(id, m'.adapters.value, wanted.value, w, w', out)
  }

  ghost predicate AdapterWrites(id: string, list: seq<NetAdapter>, spec: seq<NetAdapter>, w: World, w': World, out: Outcome) {
    var params := MissingParams(list, spec, |list|, |spec|);
    match out
    case Requeue => WroteAll(w, w', id, params) && forall i :: 0 <= i < |spec| ==> !Troubled(list, spec[i])
    case Error => WroteSome(w, w', id, params) && !w.reliable
    case Panic => WroteSome(w, w', id, params) && exists i :: 0 <= i < |spec| && Troubled(list, spec[i])
    case Continue => false
  }

  lemma {:induction false} MissingSlots(list: seq<NetAdapter>, spec: seq<NetAdapter>, start: nat, k: nat)
    requires k <= |spec|
    ensures forall key :: key in MissingParams(list, spec, start, k) ==>
      key.EthernetKey? && start <= key.slot < start + k && Contains(list, spec[key.slot - start]) == Some(false)
  {
    if k > 0 {
      MissingSlots(list, spec, start, k - 1);
    }
  }

  lemma {:induction false} MissingGrows(list: seq<NetAdapter>, spec: seq<NetAdapter>, start: nat, k: nat, more: nat, key: Key)
    requires k <= more <= |spec| && key in MissingParams(list, spec, start, k)
    ensures key in MissingParams(list, spec, start, more)
    ensures MissingParams(list, spec, start, more)[key] == MissingParams(list, spec, start, k)[key]
    decreases more - k
  {
    if k < more {
      MissingGrows(list, spec, start, k, more - 1, key);
      MissingSlots(list, spec, start, more - 1);
    }
  }

  // What was written for the first `k` adapters is part of what all of them ask for.
  lemma {:induction false} PartOfAll(w: World, w': World, id: string, list: seq<NetAdapter>, spec: seq<NetAdapter>, k: nat)
    requires k <= |spec| && WroteSome(w, w', id, MissingParams(list, spec, |list|, k))
    ensures WroteSome(w, w', id, MissingParams(list, spec, |list|, |spec|))
  {
    var p, all := MissingParams(list, spec, |list|, k), MissingParams(list, spec, |list|, |spec|);
    forall key | key in p
      ensures key in all && all[key] == p[key]
    {
      MissingGrows(list, spec, |list|, k, |spec|, key);
    }
    WroteSomeOfMore(w, w', id, p, all);
  }

  /** Writes one missing adapter after those before it. */
  method WriteAdapter(hv: Hypervisor, ghost kube: Cluster, id: string, list: seq<NetAdapter>, spec: seq<NetAdapter>,
                      i: nat, ghost w: World)
    returns (ok: bool)
    requires i < |spec| && Contains(list, spec[i]) == Some(false)
    requires WroteAll(w, Seen(hv, kube), id, MissingParams(list, spec, |list|, i))
    modifies hv`vms, hv`log
    ensures ok ==> WroteAll(w, Seen(hv, kube), id, MissingParams(list, spec, |list|, i + 1))
    ensures !ok ==> WroteSome(w, Seen(hv, kube), id, MissingParams(list, spec, |list|, |spec|))
    ensures hv.reliable && id in old(hv.vms) ==> ok
  {
    ghost var w1 := Seen(hv, kube);
    var params := AdapterParams(|list| + i, spec[i]);
    ok := hv.WriteParams(id, params, kube);
    MissingSlots(list, spec, |list|, i);
    WroteBoth(w, w1, Seen(hv, kube), id, MissingParams(list, spec, |list|, i), params);
    if !ok {
      PartOfAll(w, Seen(hv, kube), id, list, spec, i + 1);
    }
  }

  method WriteMissing(hv: Hypervisor, ghost kube: Cluster, id: string, list: seq<NetAdapter>, spec: seq<NetAdapter>)
    returns (out: Outcome)
    requires id in hv.vms
    modifies hv`vms, hv`log
    ensures AdapterWrites(id, list, spec, old(Seen(hv, kube)), Seen(hv, kube), out)
  {
    ghost var w := Seen(hv, kube);
    WroteNothing(w, id, map[]);
    for i := 0 to |spec|
      modifies hv`vms, hv`log
      invariant WroteAll(w, Seen(hv, kube), id, MissingParams(list, spec, |list|, i))
      invariant id in hv.vms
      invariant forall j :: 0 <= j < i ==> !Troubled(list, spec[j])
    {
      var contained := Contains(list, spec[i]);
      if Troubled(list, spec[i]) {
        PartOfAll(w, Seen(hv, kube), id, list, spec, i);
        return Panic;
      }
      if contained == Some(false) {
        var ok := WriteAdapter(hv, kube, id, list, spec, i, w);
        if !ok {
          return Error;
        }
      }
    }
    return Requeue;
  }

  /** Reads the adapters into the status, then writes those the spec wants and the VM lacks. */
  method RefreshAdapters(hv: Hypervisor, ghost kube: Cluster, id: string, m: VDMachine) returns (out: Outcome)
    modifies hv`vms, hv`log, m`adapters
    ensures AdaptersRefreshed(m.desired, id, old(m.Rec()), old(Seen(hv, kube)), m.Rec(), Seen(hv, kube), out)
  {
    var wanted := WantedAdapters(m.desired);
    var reply := hv.GetAllNICDevices(id);
    if !reply.Ok? {
      return Error;
    }
    m.adapters := Some(reply.value);
    if wanted.None? {
      return Continue;
    }
    ghost var r := m.Rec();
    out := WriteMissing(hv, kube, id, reply.value, wanted.value);
    assert m.Rec() == r;
  }

  method ReconcileNetworkAdapters(hv: Hypervisor, ghost kube: Cluster, id: string, m: VDMachine) returns (out: Outcome)
    modifies hv`vms, hv`log, m`adapters
    ensures AdaptersStage(m.desired, id, old(m.Rec()), old(Seen(hv, kube)), m.Rec(), Seen(hv, kube), out)
  {
    var wanted := WantedAdapters(m.desired);
    if wanted.None? && m.adapters.Some? {
      return Continue;
    }
    if wanted.Some? {
      var containsAll := ContainsAll(m.adapters.GetOr([]), wanted.value);
      if containsAll.None? {
        return Panic;
      }
      if containsAll.value {
        return Continue;
      }
    }
    out := RefreshAdapters(hv, kube, id, m);
  }
}
