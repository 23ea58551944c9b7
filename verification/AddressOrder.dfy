/** The addresses of a machine are those its guest reports, in order, less exactly those to be passed over. */
module AddressOrder {
  import opened Options
  import opened Api
  import opened Cloud
  import opened Bootstrap
  import opened Addresses

  // Where an address comes from: the NIC and its place there.
  datatype Place = Place(nic: nat, index: nat)

  predicate Before(a: Place, b: Place) {
    a.nic < b.nic || (a.nic == b.nic && a.index < b.index)
  }

  predicate Reported(guest: seq<seq<string>>, p: Place) {
    p.nic < |guest| && p.index < |guest[p.nic]|
  }

  predicate KeptAt(lib: Lib, es: seq<EthernetSpec>, guest: seq<seq<string>>, p: Place)
    requires Reported(guest, p)
  {
    Keeps(lib, es, p.nic, guest[p.nic][p.index])
  }

  // `list` consists of the addresses kept at `places`, which are in order and all there are.
  ghost predicate Lists(lib: Lib, es: seq<EthernetSpec>, guest: seq<seq<string>>, places: seq<Place>, list: seq<MachineAddress>) {
    && |places| == |list|
    && (forall i, j :: 0 <= i < j < |places| ==> Before(places[i], places[j]))
    && (forall i :: 0 <= i < |places| ==>
          && Reported(guest, places[i]) && KeptAt(lib, es, guest, places[i])
          && list[i] == MachineAddress(Kind(es, places[i].nic), lib.parseCidr(guest[places[i].nic][places[i].index]).value.text))
    && (forall p :: Reported(guest, p) && KeptAt(lib, es, guest, p) ==> p in places)
  }

  lemma {:induction false} NicInOrder(lib: Lib, es: seq<EthernetSpec>, nic: nat, cidrs: seq<string>) returns (at: seq<nat>)
    ensures |at| == |Kept(lib, es, nic, cidrs)|
    ensures forall i, j :: 0 <= i < j < |at| ==> at[i] < at[j]
    ensures forall i :: 0 <= i < |at| ==>
      && at[i] < |cidrs| && Keeps(lib, es, nic, cidrs[at[i]])
      && Kept(lib, es, nic, cidrs)[i] == MachineAddress(Kind(es, nic), lib.parseCidr(cidrs[at[i]]).value.text)
    ensures forall j: nat :: j < |cidrs| && Keeps(lib, es, nic, cidrs[j]) ==> j in at
  {
    if cidrs == [] {
      at := [];
    } else {
      var n := |cidrs| - 1;
      at := NicInOrder(lib, es, nic, cidrs[..n]);
      if Keeps(lib, es, nic, cidrs[n]) {
        at := at + [n];
      }
    }
  }

  function OnNic(nic: nat, at: seq<nat>): seq<Place> {
    seq(|at|, i requires 0 <= i < |at| => Place(nic, at[i]))
  }

  /** Whatever the guest reports, the list is in the order of the NICs and of the addresses on each, complete and without repetition. */
  lemma {:induction false} AddressesInOrder(lib: Lib, es: seq<EthernetSpec>, guest: seq<seq<string>>) returns (places: seq<Place>)
    ensures Lists(lib, es, guest, places, AllKept(lib, es, guest))
  {
    if guest == [] {
      places := [];
    } else {
      var n := |guest| - 1;
      var before := AddressesInOrder(lib, es, guest[..n]);
      var at := NicInOrder(lib, es, n, guest[n]);
      places := before + OnNic(n, at);
      MorePlaces(lib, es, guest, before, at);
    }
  }

  lemma {:induction false} MorePlaces(lib: Lib, es: seq<EthernetSpec>, guest: seq<seq<string>>, before: seq<Place>, at: seq<nat>)
    requires guest != []
    requires Lists(lib, es, guest[..|guest| - 1], before, AllKept(lib, es, guest[..|guest| - 1]))
    requires var nic := |guest| - 1;
             && |at| == |Kept(lib, es, nic, guest[nic])|
             && (forall i, j :: 0 <= i < j < |at| ==> at[i] < at[j])
             && (forall i :: 0 <= i < |at| ==>
                   && at[i] < |guest[nic]| && Keeps(lib, es, nic, guest[nic][at[i]])
                   && Kept(lib, es, nic, guest[nic])[i] == MachineAddress(Kind(es, nic), lib.parseCidr(guest[nic][at[i]]).value.text))
             && (forall j: nat :: j < |guest[nic]| && Keeps(lib, es, nic, guest[nic][j]) ==> j in at)
    ensures Lists(lib, es, guest, before + OnNic(|guest| - 1, at), AllKept(lib, es, guest))
  {
    var n := |guest| - 1;
    var places := before + OnNic(n, at);
    forall p | Reported(guest, p) && KeptAt(lib, es, guest, p)
      ensures p in places
    {
      if p.nic < n {
        assert Reported(guest[..n], p) && KeptAt(lib, es, guest[..n], p);
      } else {
        var i :| 0 <= i < |at| && at[i] == p.index;
        assert OnNic(n, at)[i] == p;
      }
    }
  }

  /** The address at a place has the type its ethernet asks for, InternalIP if it asks for none or there is no such ethernet. */
  lemma {:induction false} AddressAt(lib: Lib, es: seq<EthernetSpec>, guest: seq<seq<string>>, p: Place) returns (i: nat)
    requires Reported(guest, p) && KeptAt(lib, es, guest, p)
    ensures i < |AllKept(lib, es, guest)|
    ensures AllKept(lib, es, guest)[i].address == lib.parseCidr(guest[p.nic][p.index]).value.text
    ensures AllKept(lib, es, guest)[i].kind == if p.nic < |es| && es[p.nic].typeIP.Some? then es[p.nic].typeIP.value else "InternalIP"
  {
    var places := AddressesInOrder(lib, es, guest);
    i :| 0 <= i < |places| && places[i] == p;
  }

  /** An address in a list that could be extracted is passed over exactly if its NIC turns DHCPv6 off and it is not IPv4. */
  lemma {:induction false} PassedOverExactly(lib: Lib, es: seq<EthernetSpec>, guest: seq<seq<string>>, p: Place)
    requires Reported(guest, p) && !AnyMalformed(lib, es, guest)
    ensures !KeptAt(lib, es, guest, p) <==>
      p.nic < |es| && es[p.nic].dhcp6 == Some(false)
      && (lib.parseCidr(guest[p.nic][p.index]).None? || !lib.parseCidr(guest[p.nic][p.index]).value.v4)
  {
    assert !Malformed(lib, es, p.nic, guest[p.nic][p.index]);
  }

  /** With a VM that answers, the stage dies of a nil network exactly when the guest reports a NIC, no addresses are known and the spec has no network. */
  lemma {:induction false} AddressesPanicExactly(lib: Lib, d: Desired, id: string, m: Record, w: World, m': Record, w': World, out: Outcome)
    requires AddressesStage(lib, d, id, m, w, m', w', out) && w.reliable && id in w.vms
    ensures out == Panic <==> m.addresses == [] && w.vms[id].guest != [] && d.network.None?
    ensures out == Error <==> m.addresses == [] && d.network.Some? && AnyMalformed(lib, Ethernets(d), w.vms[id].guest)
  {
  }
}
