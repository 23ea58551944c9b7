/**
 The two outside parties of a pass: the hypervisor's REST interface and the Kubernetes API
 (stored record, IPAM claims and addresses, bootstrap secret).  Every call may fail; a failed
 call has no effect, "not found" means the VM is absent, and a reliable party fails only for an
 absent VM.  Successful writes are recorded in a log.
 */
module Cloud {
  import opened Options
  import opened Api

  // Keys of a VM's configuration file; the constructors stand for the injective key formats
  // guestinfo.<field>, ethernet<slot>.<field> and RemoteDisplay.vnc.<field>, whose prefix the
  // controller also reads in lower case.
  datatype Key =
    | GuestInfo(guest: GuestField)
    | EthernetKey(slot: nat, field: EthernetField)
    | RemoteDisplay(lower: bool, setting: VncField)

  datatype GuestField = UserData | UserDataEncoding | MetaData | MetaDataEncoding
  datatype EthernetField = ConnectionType | VirtualDev | Vnet | Present | AddressType
  datatype VncField = Enabled | Port | Password

  datatype Folder = Folder(hostPath: string, flags: int)

  // `guest` is what the guest tools report: the CIDR strings of each NIC.
  datatype VM = VM(
    power: Power,
    cpu: int,
    memory: int,
    config: map<Key, string>,
    folders: map<string, Folder>,
    guest: seq<seq<string>>)

  datatype IPAddress = IPAddress(address: string, prefix: Option<int>, gateway: string)

  datatype Event =
    | Created(id: string, name: string, parent: string)
    | Resized(id: string, cpu: int, memory: int)
    | Configured(id: string, key: Key, value: string)
    | FolderPut(id: string, folderId: string, folder: Folder)
    | FolderGone(id: string, folderId: string)
    | TurnedOn(id: string)
    | TurnedOff(id: string)
    | Deleted(id: string)

  datatype Reply<+T> = Ok(value: T) | NotFound | Failed(code: int)

  // All a pass can observe or change outside the record itself.
  datatype World = World(
    vms: map<string, VM>,
    log: seq<Event>,
    claims: map<string, PoolRef>,
    claimLog: seq<string>,
    addresses: map<string, IPAddress>,
    secret: Option<string>,
    upstream: bool,
    reliable: bool)

  ghost function Seen(hv: Hypervisor, kube: Cluster): World
    reads hv, kube
  {
    World(hv.vms, hv.log, kube.claims, kube.claimLog, kube.addresses, kube.secret, kube.upstream,
          hv.reliable && kube.reliable)
  }

  /******* Network adapters as the configuration file describes them *******/

  function Lookup(config: map<Key, string>, key: Key): string {
    if key in config then config[key] else ""
  }

  function Occupied(config: map<Key, string>): set<nat> {
    set k | k in config && k.EthernetKey? && k.field == Present && config[k] == "TRUE" :: k.slot
  }

  // The occupied slots are 0..N-1; saying that all N lie below N is enough.
  predicate Contiguous(config: map<Key, string>) {
    forall slot :: slot in Occupied(config) ==> slot < |Occupied(config)|
  }

  function NicAt(config: map<Key, string>, slot: nat): NetAdapter {
    NetAdapter(Some(Lookup(config, EthernetKey(slot, ConnectionType))),
               Some(Lookup(config, EthernetKey(slot, Vnet))),
               None)
  }

  // `list` reports the occupied slots of `config`, one entry a slot, in some order.
  ghost predicate ListsNics(list: seq<NetAdapter>, config: map<Key, string>) {
    && |list| == |Occupied(config)|
    && (forall slot :: slot in Occupied(config) ==> NicAt(config, slot) in list)
    && (forall i :: 0 <= i < |list| ==> exists slot :: slot in Occupied(config) && list[i] == NicAt(config, slot))
  }

  /******* Shared folders *******/

  // The map a list of folders denotes: a later entry replaces an earlier one with its id.
  function LastWins(folders: seq<SharedFolder>): map<string, SharedFolder> {
    if folders == [] then map[]
    else LastWins(folders[..|folders| - 1])[folders[|folders| - 1].id := folders[|folders| - 1]]
  }

  function Reported(folders: map<string, Folder>): map<string, SharedFolder> {
    map id | id in folders :: SharedFolder(id, folders[id].hostPath, Some(folders[id].flags))
  }

  /******* Parameter writes *******/

  function Only<K, V>(m: map<K, V>, keys: set<K>): map<K, V> {
    map k | k in m && k in keys :: m[k]
  }

  function WithConfig(vms: map<string, VM>, id: string, params: map<Key, string>): map<string, VM> {
    if id in vms then vms[id := vms[id].(config := vms[id].config + params)] else vms
  }

  // The keys that the events after the first `n` of `log` write.
  function KeysSince(log: seq<Event>, n: nat): set<Key> {
    if |log| <= n then {}
    else
      var last := log[|log| - 1];
      KeysSince(log[..|log| - 1], n) + if last.Configured? then {last.key} else {}
  }

  // The events after the first `n` are writes to `id` of parameters in `params`, value by value.
  ghost predicate OnlyWrites(log: seq<Event>, n: nat, id: string, params: map<Key, string>) {
    forall i :: n <= i < |log| ==>
      log[i].Configured? && log[i].id == id && log[i].key in params && log[i].value == params[log[i].key]
  }

  // From w to w' some of the parameters, those the log tells, were written to VM `id`.
  ghost predicate WroteSome(w: World, w': World, id: string, params: map<Key, string>) {
    && w.log <= w'.log
    && OnlyWrites(w'.log, |w.log|, id, params)
    && (id !in w.vms ==> w'.log == w.log)
    && w' == w.(log := w'.log, vms := WithConfig(w.vms, id, Only(params, KeysSince(w'.log, |w.log|))))
  }

  ghost predicate WroteAll(w: World, w': World, id: string, params: map<Key, string>) {
    WroteSome(w, w', id, params) && KeysSince(w'.log, |w.log|) == params.Keys
  }

  lemma {:induction false} WroteNothing(w: World, id: string, params: map<Key, string>)
    ensures WroteSome(w, w, id, params) && KeysSince(w.log, |w.log|) == {}
  {
    assert Only(params, {}) == map[];
    if id in w.vms {
      assert w.vms[id].config + map[] == w.vms[id].config;
      assert w.vms[id := w.vms[id]] == w.vms;
    }
  }

  lemma {:induction false} WroteOneMore(w: World, w1: World, w2: World, id: string, params: map<Key, string>, key: Key)
    requires WroteSome(w, w1, id, params) && key in params && id in w1.vms
    requires w2 == w1.(vms := WithConfig(w1.vms, id, map[key := params[key]]),
                       log := w1.log + [Configured(id, key, params[key])])
    ensures WroteSome(w, w2, id, params)
    ensures KeysSince(w2.log, |w.log|) == KeysSince(w1.log, |w.log|) + {key}
  {
    var n := |w.log|;
    assert w2.log[..|w2.log| - 1] == w1.log;
    var done := KeysSince(w1.log, n);
    assert w2.vms == WithConfig(w.vms, id, Only(params, done + {key})) by {
      OneMoreKey(w.vms[id].config, params, done, key);
    }
  }

  lemma {:induction false} OneMoreKey(config: map<Key, string>, params: map<Key, string>, done: set<Key>, key: Key)
    requires key in params
    ensures config + Only(params, done) + map[key := params[key]] == config + Only(params, done + {key})
  {
  }

  lemma {:induction false} KeysSinceSplit(log: seq<Event>, n: nat, k: nat)
    requires n <= k <= |log|
    ensures KeysSince(log, n) == KeysSince(log[..k], n) + KeysSince(log, k)
  {
    if k == |log| {
      assert log[..k] == log;
    } else {
      assert log[..|log| - 1][..k] == log[..k];
      KeysSinceSplit(log[..|log| - 1], n, k);
    }
  }

  // Two disjoint groups of parameters written one after the other.
  lemma {:induction false} WroteBoth(w: World, w1: World, w2: World, id: string, p: map<Key, string>, q: map<Key, string>)
    requires WroteAll(w, w1, id, p) && WroteSome(w1, w2, id, q) && p.Keys !! q.Keys
    ensures WroteSome(w, w2, id, p + q)
    ensures KeysSince(w2.log, |w.log|) == p.Keys + KeysSince(w2.log, |w1.log|)
  {
    KeysSinceSplit(w2.log, |w.log|, |w1.log|);
    assert w2.log[..|w1.log|] == w1.log;
    var done := KeysSince(w2.log, |w1.log|);
    if id in w.vms {
      TwoGroups(w.vms[id].config, p, q, done);
      assert w.vms[id := w2.vms[id]] == w1.vms[id := w2.vms[id]];
    }
    OnlyWritesBoth(w1.log, w2.log, |w.log|, id, p, q);
  }

  lemma {:induction false} TwoGroups(config: map<Key, string>, p: map<Key, string>, q: map<Key, string>, done: set<Key>)
    requires p.Keys !! q.Keys
    ensures config + Only(p, p.Keys) + Only(q, done) == config + Only(p + q, p.Keys + done)
  {
  }

  lemma {:induction false} OnlyWritesBoth(log1: seq<Event>, log2: seq<Event>, n: nat, id: string, p: map<Key, string>, q: map<Key, string>)
    requires n <= |log1| && log1 <= log2 && OnlyWrites(log1, n, id, p) && OnlyWrites(log2, |log1|, id, q)
    requires p.Keys !! q.Keys
    ensures OnlyWrites(log2, n, id, p + q)
  {
    forall i | n <= i < |log1|
      ensures log2[i] == log1[i]
    {
    }
  }

  // Written parameters stay written when more were asked for.
  lemma {:induction false} WroteSomeOfMore(w: World, w': World, id: string, p: map<Key, string>, more: map<Key, string>)
    requires WroteSome(w, w', id, p) && p.Keys <= more.Keys
    requires forall k :: k in p ==> more[k] == p[k]
    ensures WroteSome(w, w', id, more)
  {
    WrittenKeys(w'.log, |w.log|, id, p);
    var done := KeysSince(w'.log, |w.log|);
    assert Only(p, done) == Only(more, done);
  }

  lemma {:induction false} WrittenKeys(log: seq<Event>, n: nat, id: string, p: map<Key, string>)
    requires OnlyWrites(log, n, id, p)
    ensures KeysSince(log, n) <= p.Keys
  {
    if |log| > n {
      WrittenKeys(log[..|log| - 1], n, id, p);
    }
  }

  /******* Fresh names *******/

  lemma {:induction false} LongString(ids: set<string>) returns (n: nat)
    ensures forall id :: id in ids ==> |id| < n
  {
    n := 0;
    var rest := ids;
    while rest != {}
      invariant rest <= ids
      invariant forall id :: id in ids && id !in rest ==> |id| < n
    {
      var id :| id in rest;
      if |id| >= n { n := |id| + 1; }
      rest := rest - {id};
    }
  }

  function CreatedIds(log: seq<Event>): set<string> {
    set i | 0 <= i < |log| && log[i].Created? :: log[i].id
  }

  /** The vmrest server.  `reliable` and the VMs may also be changed by others between calls. */
  class Hypervisor {
    var vms: map<string, VM>
    var log: seq<Event>
    var reliable: bool

    // Whether a call naming `id` gets through.
    method Reach(id: string) returns (r: Reply<()>)
      ensures r.Ok? ==> id in vms
      ensures r.NotFound? ==> id !in vms
      ensures reliable ==> !r.Failed?
    {
      var through: bool := *;
      var code: int := *;
      if !reliable && !through {
        r := Failed(code);
      } else {
        r := if id in vms then Ok(()) else NotFound;
      }
    }

    method GetPowerState(id: string) returns (r: Reply<Power>)
      ensures r.Ok? ==> id in vms && r.value == vms[id].power
      ensures r.NotFound? ==> id !in vms
      ensures reliable ==> !r.Failed?
    {
      var reached := Reach(id);
      r := match reached
        case Ok(_) => Ok(vms[id].power)
        case NotFound => NotFound
        case Failed(code) => Failed(code);
    }

    // A clone has a name nobody uses or has used here, is off, and its adapters fill slots 0..N-1.
    method CreateVM(name: string, parent: string) returns (r: Reply<string>)
      modifies this`vms, this`log
      ensures !r.NotFound?
      ensures reliable ==> r.Ok?
      ensures r.Failed? ==> vms == old(vms) && log == old(log)
      ensures r.Ok? ==>
        && r.value !in old(vms) && r.value !in CreatedIds(old(log))
        && r.value in vms && vms == old(vms)[r.value := vms[r.value]]
        && vms[r.value].power == PoweredOff && Contiguous(vms[r.value].config)
        && log == old(log) + [Created(r.value, name, parent)]
    {
      var through: bool := *;
      if !reliable && !through {
        r := Failed(500);
      } else {
        ghost var n := LongString(vms.Keys + CreatedIds(log));
        assert |seq(n, _ => 'a')| == n;
        var id: string :| id !in vms.Keys + CreatedIds(log);
        var vm: VM := *;
        vm := vm.(power := PoweredOff, config := if Contiguous(vm.config) then vm.config else map[]);
        vms := vms[id := vm];
        log := log + [Created(id, name, parent)];
        r := Ok(id);
      }
    }

    method UpdateVM(id: string, cpu: int, memory: int) returns (ok: bool)
      modifies this`vms, this`log
      ensures ok ==> id in old(vms)
      ensures reliable && id in old(vms) ==> ok
      ensures ok ==> vms == old(vms)[id := old(vms)[id].(cpu := cpu, memory := memory)]
      ensures ok ==> log == old(log) + [Resized(id, cpu, memory)]
      ensures !ok ==> vms == old(vms) && log == old(log)
    {
      var reached := Reach(id);
      ok := reached.Ok?;
      if ok {
        vms := vms[id := vms[id].(cpu := cpu, memory := memory)];
        log := log + [Resized(id, cpu, memory)];
      }
    }

    method ChangePowerState(id: string, on: bool) returns (r: Reply<Power>)
      modifies this`vms, this`log
      ensures r.Ok? ==> id in old(vms) && r.value == if on then PoweredOn else PoweredOff
      ensures r.NotFound? ==> id !in old(vms)
      ensures reliable ==> !r.Failed?
      ensures r.Ok? ==> vms == old(vms)[id := old(vms)[id].(power := r.value)]
      ensures r.Ok? ==> log == old(log) + [if on then TurnedOn(id) else TurnedOff(id)]
      ensures !r.Ok? ==> vms == old(vms) && log == old(log)
    {
      var reached := Reach(id);
      match reached
      case Ok(_) =>
        var power := if on then PoweredOn else PoweredOff;
        vms := vms[id := vms[id].(power := power)];
        log := log + [if on then TurnedOn(id) else TurnedOff(id)];
        r := Ok(power);
      case NotFound => r := NotFound;
      case Failed(code) => r := Failed(code);
    }

    method DeleteVM(id: string) returns (ok: bool)
      modifies this`vms, this`log
      ensures ok ==> id in old(vms)
      ensures reliable && id in old(vms) ==> ok
      ensures ok ==> vms == old(vms) - {id} && log == old(log) + [Deleted(id)]
      ensures !ok ==> vms == old(vms) && log == old(log)
    {
      var reached := Reach(id);
      ok := reached.Ok?;
      if ok {
        vms := vms - {id};
        log := log + [Deleted(id)];
      }
    }

    method ConfigVMParams(id: string, key: Key, value: string) returns (ok: bool)
      modifies this`vms, this`log
      ensures ok ==> id in old(vms)
      ensures reliable && id in old(vms) ==> ok
      ensures ok ==> vms == WithConfig(old(vms), id, map[key := value])
      ensures ok ==> log == old(log) + [Configured(id, key, value)]
      ensures !ok ==> vms == old(vms) && log == old(log)
    {
      var reached := Reach(id);
      ok := reached.Ok?;
      if ok {
        vms := vms[id := vms[id].(config := vms[id].config + map[key := value])];
        log := log + [Configured(id, key, value)];
      }
    }

    method GetVMParams(id: string, key: Key) returns (r: Reply<string>)
      ensures r.Ok? ==> id in vms && r.value == Lookup(vms[id].config, key)
      ensures reliable && id in vms ==> r.Ok?
    {
      var reached := Reach(id);
      r := match reached
        case Ok(_) => Ok(Lookup(vms[id].config, key))
        case NotFound => NotFound
        case Failed(code) => Failed(code);
    }

    method GetAllNICDevices(id: string) returns (r: Reply<seq<NetAdapter>>)
      ensures r.Ok? ==> id in vms && ListsNics(r.value, vms[id].config)
      ensures reliable && id in vms ==> r.Ok?
    {
      var reached := Reach(id);
      if !reached.Ok? {
        r := Failed(500);
        return;
      }
      var config := vms[id].config;
      var rest, list := Occupied(config), [];
      while rest != {}
        invariant rest <= Occupied(config)
        invariant |list| + |rest| == |Occupied(config)|
        invariant forall slot :: slot in Occupied(config) && slot !in rest ==> NicAt(config, slot) in list
        invariant forall i :: 0 <= i < |list| ==> exists slot :: slot in Occupied(config) && list[i] == NicAt(config, slot)
      {
        var slot :| slot in rest;
        var was := list;
        list := list + [NicAt(config, slot)];
        assert forall i :: 0 <= i < |was| ==> list[i] == was[i];
        assert list[|was|] == NicAt(config, slot);
        rest := rest - {slot};
      }
      r := Ok(list);
    }

    method GetAllSharedFolders(id: string) returns (r: Reply<seq<SharedFolder>>)
      ensures r.Ok? ==> id in vms && LastWins(r.value) == Reported(vms[id].folders)
      ensures reliable && id in vms ==> r.Ok?
    {
      var reached := Reach(id);
      if !reached.Ok? {
        r := Failed(500);
        return;
      }
      var folders := vms[id].folders;
      var rest, list := folders.Keys, [];
      while rest != {}
        invariant rest <= folders.Keys
        invariant LastWins(list) == Only(Reported(folders), folders.Keys - rest)
      {
        var fid :| fid in rest;
        var entry := SharedFolder(fid, folders[fid].hostPath, Some(folders[fid].flags));
        assert (list + [entry])[..|list|] == list;
        list := list + [entry];
        rest := rest - {fid};
      }
      r := Ok(list);
    }

    method DeleteSharedFolder(id: string, fid: string) returns (ok: bool)
      modifies this`vms, this`log
      ensures ok ==> id in old(vms)
      ensures reliable && id in old(vms) ==> ok
      ensures ok ==> vms == old(vms)[id := old(vms)[id].(folders := old(vms)[id].folders - {fid})]
      ensures ok ==> log == old(log) + [FolderGone(id, fid)]
      ensures !ok ==> vms == old(vms) && log == old(log)
    {
      var reached := Reach(id);
      ok := reached.Ok?;
      if ok {
        vms := vms[id := vms[id].(folders := vms[id].folders - {fid})];
        log := log + [FolderGone(id, fid)];
      }
    }

    // An upsert.
    method CreateSharedFolder(id: string, fid: string, folder: Folder) returns (ok: bool)
      modifies this`vms, this`log
      ensures ok ==> id in old(vms)
      ensures reliable && id in old(vms) ==> ok
      ensures ok ==> vms == old(vms)[id := old(vms)[id].(folders := old(vms)[id].folders[fid := folder])]
      ensures ok ==> log == old(log) + [FolderPut(id, fid, folder)]
      ensures !ok ==> vms == old(vms) && log == old(log)
    {
      var reached := Reach(id);
      ok := reached.Ok?;
      if ok {
        vms := vms[id := vms[id].(folders := vms[id].folders[fid := folder])];
        log := log + [FolderPut(id, fid, folder)];
      }
    }

    method GetNicInfo(id: string) returns (r: Reply<seq<seq<string>>>)
      ensures r.Ok? ==> id in vms && r.value == vms[id].guest
      ensures reliable && id in vms ==> r.Ok?
    {
      var reached := Reach(id);
      r := match reached
        case Ok(_) => Ok(vms[id].guest)
        case NotFound => NotFound
        case Failed(code) => Failed(code);
    }

    /** Writes one parameter more. */
    method WriteOne(ghost w: World, id: string, params: map<Key, string>, key: Key, ghost kube: Cluster)
      returns (ok: bool)
      requires key in params && WroteSome(w, Seen(this, kube), id, params)
      modifies this`vms, this`log
      ensures WroteSome(w, Seen(this, kube), id, params)
      ensures ok ==> KeysSince(log, |w.log|) == old(KeysSince(log, |w.log|)) + {key}
      ensures reliable && id in w.vms ==> ok
    {
      ghost var before := Seen(this, kube);
      ok := ConfigVMParams(id, key, params[key]);
      if ok {
        WroteOneMore(w, before, Seen(this, kube), id, params, key);
      }
    }

    /** Writes every parameter, in the arbitrary order of a Go map, until one write fails. */
    method WriteParams(id: string, params: map<Key, string>, ghost kube: Cluster) returns (ok: bool)
      modifies this`vms, this`log
      ensures reliable && id in old(vms) ==> ok
      ensures ok ==> WroteAll(old(Seen(this, kube)), Seen(this, kube), id, params)
      ensures !ok ==> WroteSome(old(Seen(this, kube)), Seen(this, kube), id, params)
    {
      ghost var w := Seen(this, kube);
      WroteNothing(w, id, params);
      var rest := params.Keys;
      while rest != {}
        modifies this`vms, this`log
        invariant rest <= params.Keys
        invariant WroteSome(w, Seen(this, kube), id, params)
        invariant KeysSince(log, |w.log|) == params.Keys - rest
      {
        var key :| key in rest;
        ok := WriteOne(w, id, params, key, kube);
        if !ok {
          return;
        }
        rest := rest - {key};
      }
      ok := true;
    }
  }

  class Cluster {
    var alive: bool
    var stored: Record
    var claims: map<string, PoolRef>
    var claimLog: seq<string>
    var addresses: map<string, IPAddress>
    var secret: Option<string>
    var upstream: bool
    var reliable: bool

    method GetClaim(name: string) returns (r: Reply<PoolRef>)
      ensures r.Ok? ==> name in claims && r.value == claims[name]
      ensures r.NotFound? ==> name !in claims
      ensures reliable ==> !r.Failed?
    {
      var through: bool := *;
      r := if !reliable && !through then Failed(500) else if name in claims then Ok(claims[name]) else NotFound;
    }

    method CreateClaim(name: string, pool: PoolRef) returns (ok: bool)
      modifies this`claims, this`claimLog
      ensures reliable && name !in old(claims) ==> ok
      ensures ok ==> name !in old(claims) && claims == old(claims)[name := pool] && claimLog == old(claimLog) + [name]
      ensures !ok ==> claims == old(claims) && claimLog == old(claimLog)
    {
      var through: bool := *;
      ok := (reliable || through) && name !in claims;
      if ok {
        claims := claims[name := pool];
        claimLog := claimLog + [name];
      }
    }

    method GetAddress(name: string) returns (r: Reply<IPAddress>)
      ensures r.Ok? ==> name in addresses && r.value == addresses[name]
      ensures r.NotFound? ==> name !in addresses
      ensures reliable ==> !r.Failed?
    {
      var through: bool := *;
      r := if !reliable && !through then Failed(500) else if name in addresses then Ok(addresses[name]) else NotFound;
    }

    method GetSecretData() returns (r: Reply<string>)
      ensures r.Ok? ==> secret == Some(r.value)
      ensures reliable && secret.Some? ==> r.Ok?
    {
      var through: bool := *;
      r := if (reliable || through) && secret.Some? then Ok(secret.value) else Failed(404);
    }

    /** Stores what the pass made of the record; a record marked deleted goes with its last finalizer. */
    method Patch(m: Record) returns (ok: bool)
      modifies this`stored, this`alive
      ensures reliable && old(alive) ==> ok
      ensures ok ==> old(alive)
      ensures ok ==> stored == m.(deleting := old(stored).deleting, adapters := if m.adapters == Some([]) then None else m.adapters)
      ensures ok ==> alive == !(stored.deleting && !stored.finalizer)
      ensures !ok ==> stored == old(stored) && alive == old(alive)
    {
      var through: bool := *;
      ok := (reliable || through) && alive;
      if ok {
        stored := Persist(m).(deleting := stored.deleting);
        alive := !(stored.deleting && !stored.finalizer);
      }
    }
  }
}
