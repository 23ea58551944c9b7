/** Machine addresses: what the guest reports, flattened, once there is one for each ethernet. */
module Addresses {
  import opened Options
  import opened Api
  import opened Cloud
  import opened Bootstrap

  function Kind(es: seq<EthernetSpec>, i: nat): string {
    if i < |es| then es[i].typeIP.GetOr("InternalIP") else "InternalIP"
  }

  // NIC i is told not to use DHCPv6; addresses that are not IPv4 are then passed over.
  predicate OnlyV4(es: seq<EthernetSpec>, i: nat) {
    i < |es| && es[i].dhcp6 == Some(false)
  }

  // This address ends the extraction with an error.
  predicate Malformed(lib: Lib, es: seq<EthernetSpec>, i: nat, cidr: string) {
    lib.parseCidr(cidr).None? && !OnlyV4(es, i)
  }

  predicate Keeps(lib: Lib, es: seq<EthernetSpec>, i: nat, cidr: string) {
    lib.parseCidr(cidr).Some? && (OnlyV4(es, i) ==> lib.parseCidr(cidr).value.v4)
  }

  // The addresses kept of NIC i, in order.
  function Kept(lib: Lib, es: seq<EthernetSpec>, i: nat, cidrs: seq<string>): seq<MachineAddress> {
    if cidrs == [] then []
    else
      var last := cidrs[|cidrs| - 1];
      Kept(lib, es, i, cidrs[..|cidrs| - 1]) +
      if Keeps(lib, es, i, last) then [MachineAddress(Kind(es, i), lib.parseCidr(last).value.text)] else []
  }

  function AllKept(lib: Lib, es: seq<EthernetSpec>, guest: seq<seq<string>>): seq<MachineAddress> {
    if guest == [] then []
    else AllKept(lib, es, guest[..|guest| - 1]) + Kept(lib, es, |guest| - 1, guest[|guest| - 1])
  }

  ghost predicate AnyMalformed(lib: Lib, es: seq<EthernetSpec>, guest: seq<seq<string>>) {
    exists i, j :: 0 <= i < |guest| && 0 <= j < |guest[i]| && Malformed(lib, es, i, guest[i][j])
  }

  /** Walks the NICs and their addresses; None at the first malformed one that is not passed over. */
  method ExtractAddresses(lib: Lib, es: seq<EthernetSpec>, guest: seq<seq<string>>) returns (r: Option<seq<MachineAddress>>)
    ensures r.None? <==> AnyMalformed(lib, es, guest)
    ensures r.Some? ==> r.value == AllKept(lib, es, guest)
  {
    var addresses: seq<MachineAddress> := [];
    for i := 0 to |guest|
      invariant addresses == AllKept(lib, es, guest[..i])
      invariant !AnyMalformed(lib, es, guest[..i])
    {
      var nic := ExtractNic(lib, es, i, guest[i]);
      if nic.None? {
        return None;
      }
      assert guest[..i + 1][..i] == guest[..i];
      addresses := addresses + nic.value;
    }
    assert guest[..|guest|] == guest;
    return Some(addresses);
  }

  method ExtractNic(lib: Lib, es: seq<EthernetSpec>, i: nat, cidrs: seq<string>) returns (r: Option<seq<MachineAddress>>)
    ensures r.None? <==> exists j :: 0 <= j < |cidrs| && Malformed(lib, es, i, cidrs[j])
    ensures r.Some? ==> r.value == Kept(lib, es, i, cidrs)
  {
    var addresses: seq<MachineAddress> := [];
    for j := 0 to |cidrs|
      invariant addresses == Kept(lib, es, i, cidrs[..j])
      invariant forall k :: 0 <= k < j ==> !Malformed(lib, es, i, cidrs[k])
    {
      assert cidrs[..j + 1][..j] == cidrs[..j];
      var ip := lib.parseCidr(cidrs[j]);
      if OnlyV4(es, i) && (ip.None? || !ip.value.v4) {
        assert !Keeps(lib, es, i, cidrs[j]);
        continue;
      }
      if ip.None? {
        return None;
      }
      addresses := addresses + [MachineAddress(Kind(es, i), ip.value.text)];
    }
    assert cidrs[..|cidrs|] == cidrs;
    return Some(addresses);
  }

  ghost predicate AddressesStage(lib: Lib, d: Desired, id: string, m: Record, w: World, m': Record, w': World, out: Outcome) {
    && w' == w
    && if m.addresses != [] then out == Continue && m' == m
       else if id !in w.vms then (out == Error || out == Requeue) && m' == m
       else
         var guest, es := w.vms[id].guest, Ethernets(d);
         match out
         case Continue =>
           && d.network.Some? && guest != [] && !AnyMalformed(lib, es, guest) && |AllKept(lib, es, guest)| >= |es|
           && m' == m.(addresses := AllKept(lib, es, guest), ready := true, provisioned := true)
         case Requeue =>
           m' == m && (!w.reliable || guest == [] || (d.network.Some? && !AnyMalformed(lib, es, guest) && |AllKept(lib, es, guest)| < |es|))
         case Error => m' == m && (!w.reliable || (d.network.Some? && guest != [] && AnyMalformed(lib, es, guest)))
         case Panic => m' == m && guest != [] && d.network.None?
  }

  method ReconcileAddresses(lib: Lib, hv: Hypervisor, ghost kube: Cluster, id: string, m: VDMachine) returns (out: Outcome)
    modifies m`addresses, m`ready, m`provisioned
    ensures AddressesStage(lib, m.desired, id, old(m.Rec()), old(Seen(hv, kube)), m.Rec(), Seen(hv, kube), out)
  {
    if |m.addresses| > 0 {
      return Continue;
    }
    var nics := hv.GetNicInfo(id);
    if !nics.Ok? {
      return if nics.Failed? && nics.code == 500 then Requeue else Error;
    }
    if nics.value == [] {
      return Requeue;
    }
    if m.desired.network.None? {
      return Panic;
    }
    var es := Ethernets(m.desired);
    var addresses := ExtractAddresses(lib, es, nics.value);
    if addresses.None? {
      return Error;
    }
    if |addresses.value| < |es| {
      return Requeue;
    }
    m.addresses := addresses.value;
    m.ready := true;
    m.provisioned := true;
    return Continue;
  }
}
