/**
 What convergence asks for and where it leads, in the words of the spec, the record and the VM:
 without the predicates the stages are told by.
 */
module RestMeaning {
  import opened Options
  import opened Api
  import opened Cloud
  import opened Folders
  import opened FolderSync
  import opened Adapters
  import opened AdapterSlots
  import opened Claims
  import opened ClaimHistory
  import opened VncSettings
  import opened Bootstrap
  import opened Addresses
  import opened System
  import opened Quiescence
  import opened Progress
  import opened Convergence

  // The processors and memory of the status are those asked for.
  predicate SizeShown(d: Desired, m: Record) {
    && (d.cpu.Some? ==> m.hardware.cpu == d.cpu.value)
    && (d.memory.Some? ==> m.hardware.memory == d.memory.value)
  }

  // The status has an adapter of this type and network.
  predicate AdapterShown(m: Record, a: NetAdapter) {
    m.adapters.Some? && exists j :: 0 <= j < |m.adapters.value| && Alike(m.adapters.value[j], a)
  }

  // The status has every adapter asked for; if none are, it has been read, or the VM has none.
  ghost predicate AdaptersShown(d: Desired, m: Record, w: World) {
    if d.network.Some? && d.network.value.adapters.Some? then
      forall i :: 0 <= i < |d.network.value.adapters.value| ==> AdapterShown(m, d.network.value.adapters.value[i])
    else
      m.adapters.Some? || (m.vmID.Some? && m.vmID.value in w.vms && NoAdapter(w.vms[m.vmID.value].config))
  }

  ghost predicate NoAdapter(config: map<Key, string>) {
    forall slot: nat :: !(EthernetKey(slot, Present) in config && config[EthernetKey(slot, Present)] == "TRUE")
  }

  // Under the name of each pool reference there is a claim, and an address that is not empty.
  predicate ClaimServed(w: World, name: string) {
    name in w.claims && name in w.addresses && w.addresses[name].address != ""
  }

  predicate ClaimsServed(d: Desired, w: World) {
    d.network.Some? ==> forall k :: 0 <= k < |d.network.value.ethernets| && d.network.value.ethernets[k].ipamRef.Some? ==>
      ClaimServed(w, d.name + "-" + d.network.value.ethernets[k].name)
  }

  // Spec and status name the same folders, and their last entries of each have the same host path.
  ghost predicate FoldersShown(d: Desired, m: Record) {
    forall fid: string ::
      var asked, shown := LastIndex(d.folders, fid), LastIndex(m.sharedFolders, fid);
      && (asked >= 0 <==> shown >= 0)
      && (asked >= 0 ==> d.folders[asked].hostPath == m.sharedFolders[shown].hostPath)
  }

  // The settings were read, show what the spec sets, and nothing is left to generate.
  predicate VncShown(m: Record) {
    && m.vncStatus.Some?
    && (m.vnc.Some? ==>
          && (m.vnc.value.enabled.Some? ==> m.vncStatus.value.enabled == m.vnc.value.enabled)
          && (m.vnc.value.port.Some? ==> m.vncStatus.value.port == m.vnc.value.port)
          && (m.vnc.value.password.Some? ==> m.vncStatus.value.password == m.vnc.value.password)
          && (m.vnc.value.port.None? ==> m.vnc.value.generatePort != Some(true))
          && (m.vnc.value.password.None? ==> m.vnc.value.generatePassword != Some(true)))
  }

  lemma {:induction false} AdapterMeans(m: Record, a: NetAdapter)
    requires AllComplete(m.adapters.GetOr([])) && Complete(a)
    ensures Contains(m.adapters.GetOr([]), a) == Some(AdapterShown(m, a))
  {
    ContainsMeans(m.adapters.GetOr([]), a);
    if m.adapters.Some? {
      var list := m.adapters.value;
      forall j | 0 <= j < |list|
        ensures Alike(list[j], a) <==> list[j].kind == a.kind && list[j].vmnet == a.vmnet
      {
      }
    }
  }

  lemma {:induction false} AdaptersMean(d: Desired, m: Record, w: World)
    requires WellFormed(d) && AllComplete(m.adapters.GetOr([]))
    ensures AdaptersAtRest(d, m, w) <==> AdaptersShown(d, m, w)
  {
    if d.network.value.adapters.Some? {
      var spec := d.network.value.adapters.value;
      AllContainedMeans(m.adapters.GetOr([]), spec);
      forall i | 0 <= i < |spec|
        ensures Contains(m.adapters.GetOr([]), spec[i]) == Some(AdapterShown(m, spec[i]))
      {
        AdapterMeans(m, spec[i]);
      }
    } else if m.vmID.Some? && m.vmID.value in w.vms {
      forall slot: nat
        ensures slot in Occupied(w.vms[m.vmID.value].config) <==>
          var config := w.vms[m.vmID.value].config; EthernetKey(slot, Present) in config && config[EthernetKey(slot, Present)] == "TRUE"
      {
        InUse(w.vms[m.vmID.value].config, slot);
      }
    }
  }

  lemma {:induction false} ClaimsMean(d: Desired, w: World)
    ensures ClaimsAtRest(d, w) <==> ClaimsServed(d, w)
  {
    if d.network.Some? {
      forall k | 0 <= k < |d.network.value.ethernets| && d.network.value.ethernets[k].ipamRef.Some?
        ensures ClaimServed(w, d.name + "-" + d.network.value.ethernets[k].name) <==>
          ClaimName(d.name, Ethernets(d)[k]) in w.claims && Resolved(w.addresses, d.name, Ethernets(d)[k])
      {
      }
    }
  }

  lemma {:induction false} FoldersMean(d: Desired, m: Record)
    ensures SameFolders(d.folders, m.sharedFolders) <==> FoldersShown(d, m)
  {
    var spec, status := HostPaths(d.folders), HostPaths(m.sharedFolders);
    forall fid
      ensures fid in spec <==> LastIndex(d.folders, fid) >= 0
      ensures fid in status <==> LastIndex(m.sharedFolders, fid) >= 0
      ensures fid in spec ==> spec[fid] == d.folders[LastIndex(d.folders, fid)].hostPath
      ensures fid in status ==> status[fid] == m.sharedFolders[LastIndex(m.sharedFolders, fid)].hostPath
    {
      LastWinsMeans(d.folders, fid);
      LastWinsMeans(m.sharedFolders, fid);
    }
    if FoldersShown(d, m) {
      forall fid
        ensures fid in spec <==> fid in status
        ensures fid in spec ==> spec[fid] == status[fid]
      {
        assert LastIndex(d.folders, fid) >= 0 <==> LastIndex(m.sharedFolders, fid) >= 0;
      }
    }
  }

  /**
   The machine is at rest exactly if its finalizer is on and it is not being deleted; its provider id
   names its VM, which is there and, as recorded, not off; sizes, adapters, folders and VNC settings of
   the status are those asked for; every pool reference has its claim and its address; and it is
   bootstrapped, ready and, if it has an ethernet, has addresses.
   */
  lemma {:induction false} RestMeans(s: State)
    requires Hopeful(s)
    ensures var d, m, w := s.d, s.stored, s.w;
            Rested(d, m, w) <==>
            && m.finalizer && !m.deleting && m.bootstrapped && m.ready
            && m.vmID.Some? && m.vmID.value in w.vms && m.providerID == Some("vmwaredesktop://" + m.vmID.value)
            && m.state == Some(w.vms[m.vmID.value].power) && w.vms[m.vmID.value].power != PoweredOff
            && SizeShown(d, m) && AdaptersShown(d, m, w) && ClaimsServed(d, w) && FoldersShown(d, m) && VncShown(m)
            && (d.network.Some? && d.network.value.ethernets != [] ==> m.addresses != [])
  {
    AdaptersMean(s.d, s.stored, s.w);
    ClaimsMean(s.d, s.w);
    FoldersMean(s.d, s.stored);
  }

  /******* What convergence asks for *******/

  /** The bound on the passes needed: the distinct names under which the spec refers to pools, and seven. */
  lemma {:induction false} BoundMeans(d: Desired)
    requires d.network.Some?
    ensures MostPasses(d) ==
      |set k | 0 <= k < |d.network.value.ethernets| && d.network.value.ethernets[k].ipamRef.Some? :: d.name + "-" + d.network.value.ethernets[k].name| + 7
  {
    assert Refs(d.name, Ethernets(d)) ==
      set k | 0 <= k < |d.network.value.ethernets| && d.network.value.ethernets[k].ipamRef.Some? :: d.name + "-" + d.network.value.ethernets[k].name;
  }

  /** A spec is well-formed exactly if it has a network, and in it every adapter its type and network and every pool reference its API group. */
  lemma {:induction false} WellFormedMeans(d: Desired)
    ensures WellFormed(d) <==>
      && d.network.Some?
      && (d.network.value.adapters.Some? ==>
            forall i :: 0 <= i < |d.network.value.adapters.value| ==>
              d.network.value.adapters.value[i].kind.Some? && d.network.value.adapters.value[i].vmnet.Some?)
      && forall k :: 0 <= k < |d.network.value.ethernets| && d.network.value.ethernets[k].ipamRef.Some? ==>
           d.network.value.ethernets[k].ipamRef.value.apiGroup.Some?
  {
    if d.network.Some? && d.network.value.adapters.Some? {
      var spec := d.network.value.adapters.value;
      assert forall i :: 0 <= i < |spec| ==> (Complete(spec[i]) <==> spec[i].kind.Some? && spec[i].vmnet.Some?);
      assert AllComplete(spec) <==> forall i :: 0 <= i < |spec| ==> spec[i].kind.Some? && spec[i].vmnet.Some?;
    }
    if d.network.Some? {
      assert Ethernets(d) == d.network.value.ethernets;
    }
  }

  // The address under this name, if there is one, has its prefix; and a claim has its address.
  predicate AddressWhole(w: World, e: EthernetSpec, name: string) {
    && (name in w.addresses && w.addresses[name].address != "" ==> w.addresses[name].prefix.Some?)
    && (name in w.claims && e.ipamRef.Some? ==> name in w.addresses && w.addresses[name].address != "")
  }

  predicate IsFlag(text: string) {
    text in {"1", "t", "T", "TRUE", "true", "True", "0", "f", "F", "FALSE", "false", "False"}
  }

  // The VM's configuration shows what the spec sets, as long as the status was not read.
  predicate VncFound(m: Record, vm: VM) {
    m.vnc.Some? && m.vncStatus.None? ==>
      && (m.vnc.value.enabled.Some? ==> IsFlag(Setting(vm.config, Enabled)))
      && (m.vnc.value.port.Some? ==> Setting(vm.config, Port) != "")
      && (m.vnc.value.password.Some? ==> Setting(vm.config, Password) != "")
  }

  // The guest reports addresses that can be read, and after those passed over enough are left.
  ghost predicate GuestDone(lib: Lib, es: seq<EthernetSpec>, vm: VM) {
    && vm.guest != []
    && (forall i, j :: 0 <= i < |vm.guest| && 0 <= j < |vm.guest[i]| && lib.parseCidr(vm.guest[i][j]).None? ==>
          i < |es| && es[i].dhcp6 == Some(false))
    && |AllKept(lib, es, vm.guest)| >= |es|
  }

  /**
   A pass has nobody to wait for exactly if the calls work, the upstream objects and the secret are
   there, addresses have their prefix, claims their address, and the record's VM, if it is there, shows
   its VNC settings and, unless it is off, what its guest has to report.
   */
  lemma {:induction false} FavourableMeans(lib: Lib, s: State)
    requires s.d.network.Some?
    ensures Favourable(lib, s) <==>
      && s.w.reliable && s.w.upstream && s.w.secret.Some?
      && (forall k :: 0 <= k < |s.d.network.value.ethernets| ==>
            AddressWhole(s.w, s.d.network.value.ethernets[k], s.d.name + "-" + s.d.network.value.ethernets[k].name))
      && (s.stored.vmID.Some? && s.stored.vmID.value in s.w.vms ==>
            && VncFound(s.stored, s.w.vms[s.stored.vmID.value])
            && (s.w.vms[s.stored.vmID.value].power != PoweredOff ==> GuestDone(lib, s.d.network.value.ethernets, s.w.vms[s.stored.vmID.value])))
  {
    AddressesMean(s.d, s.w);
    if s.stored.vmID.Some? && s.stored.vmID.value in s.w.vms {
      var vm := s.w.vms[s.stored.vmID.value];
      VncMeans(s.stored, vm);
      GuestMeans(lib, s.d, vm);
    }
  }

  lemma {:induction false} AddressesMean(d: Desired, w: World)
    requires d.network.Some?
    ensures (forall k :: 0 <= k < |Ethernets(d)| ==> !NoPrefix(FindAddress(w.addresses, d.name, Ethernets(d)[k]))) && ClaimsAnswered(d, w) <==>
      forall k :: 0 <= k < |d.network.value.ethernets| ==>
        AddressWhole(w, d.network.value.ethernets[k], d.name + "-" + d.network.value.ethernets[k].name)
  {
    forall k | 0 <= k < |Ethernets(d)|
      ensures AddressWhole(w, d.network.value.ethernets[k], d.name + "-" + d.network.value.ethernets[k].name) <==>
        && !NoPrefix(FindAddress(w.addresses, d.name, Ethernets(d)[k]))
        && (ClaimName(d.name, Ethernets(d)[k]) in w.claims ==> Resolved(w.addresses, d.name, Ethernets(d)[k]))
    {
    }
  }

  lemma {:induction false} VncMeans(m: Record, vm: VM)
    ensures VncReadable(m, vm) <==> VncFound(m, vm)
  {
    ReadSays(vm.config);
  }

  lemma {:induction false} GuestMeans(lib: Lib, d: Desired, vm: VM)
    requires d.network.Some?
    ensures GuestReports(lib, d, vm) <==> GuestDone(lib, d.network.value.ethernets, vm)
  {
    forall i, j | 0 <= i < |vm.guest| && 0 <= j < |vm.guest[i]|
      ensures Malformed(lib, Ethernets(d), i, vm.guest[i][j]) <==>
        lib.parseCidr(vm.guest[i][j]).None? && !(i < |Ethernets(d)| && Ethernets(d)[i].dhcp6 == Some(false))
    {
    }
  }
}
