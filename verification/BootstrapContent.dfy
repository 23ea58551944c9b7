/** What the bootstrap data says, and that the guest can read it back. */
module BootstrapContent {
  import opened Options
  import opened Api
  import opened Cloud
  import opened Claims
  import opened Metadata
  import opened MetadataRoundTrip
  import opened VncSettings
  import opened Bootstrap
  import opened VncRounds
  import opened Quiescence

  lemma {:induction false} OneEthernet(a: Ethernet, b: Ethernet, e: EthernetSpec, ip: Option<IPAddress>)
    requires DescribesEthernet(a, e, ip) && DescribesEthernet(b, e, ip)
    ensures a == b
  {
    assert a.routes == b.routes by {
      forall i | 0 <= i < |e.routes|
        ensures a.routes[i] == b.routes[i]
      {
        assert RoutedBy(a.routes[i], e.routes[i], ip) && RoutedBy(b.routes[i], e.routes[i], ip);
      }
    }
  }

  lemma {:induction false} OneNodeIP(a: Option<string>, b: Option<string>, machine: string, es: seq<EthernetSpec>, addresses: map<string, IPAddress>)
    requires IsNodeIP(a, machine, es, addresses) && IsNodeIP(b, machine, es, addresses)
    ensures a == b
  {
  }

  /** The description leaves nothing open: spec and addresses determine the document. */
  lemma {:induction false} OneDocument(a: Document, b: Document, id: string, machine: string, es: seq<EthernetSpec>, addresses: map<string, IPAddress>)
    requires Describes(a, id, machine, es, addresses) && Describes(b, id, machine, es, addresses)
    ensures a == b
  {
    forall i | 0 <= i < |es|
      ensures a.ethernets[i] == b.ethernets[i]
    {
      OneEthernet(a.ethernets[i], b.ethernets[i], es[i], FindAddress(addresses, machine, es[i]));
    }
    assert a.ethernets == b.ethernets;
    OneNodeIP(a.nodeIP, b.nodeIP, machine, es, addresses);
  }

  /**
   After the IPAM stage let the pass go on, each pool-backed ethernet of the document has exactly
   one address, the allocated one with its prefix; each route keeps its place, target and explicit
   gateway, and otherwise goes through the allocated one.
   */
  lemma {:induction false} PoolBackedEntry(doc: Document, id: string, d: Desired, w: World, i: nat)
    requires Describes(doc, id, d.name, Ethernets(d), w.addresses) && ClaimsAtRest(d, w)
    requires i < |Ethernets(d)| && Ethernets(d)[i].ipamRef.Some?
    ensures |doc.ethernets| == |Ethernets(d)| && doc.ethernets[i].name == Ethernets(d)[i].name
    ensures ClaimName(d.name, Ethernets(d)[i]) in w.addresses
    ensures var ip := w.addresses[ClaimName(d.name, Ethernets(d)[i])];
            && ip.prefix.Some?
            && doc.ethernets[i].addresses == [ip.address + "/" + SignedDecimal(ip.prefix.value)]
            && forall r :: 0 <= r < |Ethernets(d)[i].routes| ==>
                 doc.ethernets[i].routes[r] == Route(Ethernets(d)[i].routes[r].to, Some(Ethernets(d)[i].routes[r].via.GetOr(ip.gateway)))
  {
    var e := Ethernets(d)[i];
    assert Resolved(w.addresses, d.name, e);
    var ip := FindAddress(w.addresses, d.name, e);
    assert DescribesEthernet(doc.ethernets[i], e, ip);
    forall r | 0 <= r < |e.routes|
      ensures doc.ethernets[i].routes[r] == Route(e.routes[r].to, Some(e.routes[r].via.GetOr(ip.value.gateway)))
    {
      assert RoutedBy(doc.ethernets[i].routes[r], e.routes[r], ip);
    }
  }

  // Where the address of the k-th ethernet is looked up.
  function AddressName(d: Desired, k: nat): string
    requires d.network.Some? && k < |d.network.value.ethernets|
  {
    d.name + "-" + d.network.value.ethernets[k].name
  }

  // The k-th ethernet has an address.
  predicate Addressed(d: Desired, w: World, k: nat)
    requires d.network.Some? && k < |d.network.value.ethernets|
  {
    AddressName(d, k) in w.addresses && w.addresses[AddressName(d, k)].address != ""
  }

  // It has one, and is flagged to give the node its address.
  predicate ForNode(d: Desired, w: World, k: nat) {
    && d.network.Some? && k < |d.network.value.ethernets|
    && d.network.value.ethernets[k].ipamAsNodeIP == Some(true) && Addressed(d, w, k)
  }

  lemma {:induction false} ForNodeMeans(d: Desired, w: World, k: nat)
    requires d.network.Some? && k < |Ethernets(d)|
    ensures ForNode(d, w, k) <==> NamesNode(Ethernets(d)[k], FindAddress(w.addresses, d.name, Ethernets(d)[k]))
    ensures ForNode(d, w, k) ==>
      FindAddress(w.addresses, d.name, Ethernets(d)[k]) == Some(w.addresses[d.name + "-" + d.network.value.ethernets[k].name])
  {
  }

  /**
   The node address is that of the last ethernet that is flagged for it and has one; there is none
   exactly if there is no such ethernet.
   */
  lemma {:induction false} NodeAddress(doc: Document, id: string, d: Desired, w: World)
    requires d.network.Some? && Describes(doc, id, d.name, Ethernets(d), w.addresses)
    ensures doc.nodeIP.None? <==> forall k :: 0 <= k < |d.network.value.ethernets| ==> !ForNode(d, w, k)
    ensures forall k: nat :: ForNode(d, w, k) && (forall j :: k < j < |d.network.value.ethernets| ==> !ForNode(d, w, j)) ==>
      doc.nodeIP == Some(w.addresses[d.name + "-" + d.network.value.ethernets[k].name].address)
  {
    forall k | 0 <= k < |Ethernets(d)|
      ensures ForNode(d, w, k) <==> NamesNode(Ethernets(d)[k], FindAddress(w.addresses, d.name, Ethernets(d)[k]))
      ensures ForNode(d, w, k) ==>
        FindAddress(w.addresses, d.name, Ethernets(d)[k]) == Some(w.addresses[d.name + "-" + d.network.value.ethernets[k].name])
    {
      ForNodeMeans(d, w, k);
    }
    forall k: nat | ForNode(d, w, k) && (forall j :: k < j < |d.network.value.ethernets| ==> !ForNode(d, w, j))
      ensures doc.nodeIP == Some(w.addresses[d.name + "-" + d.network.value.ethernets[k].name].address)
    {
      assert NamesNode(Ethernets(d)[k], FindAddress(w.addresses, d.name, Ethernets(d)[k]));
    }
  }

  /** Each entry has the one address that is allocated under its name, with its prefix, or none while that is empty. */
  lemma {:induction false} EntryAddress(doc: Document, id: string, d: Desired, w: World, k: nat)
    requires d.network.Some? && Describes(doc, id, d.name, Ethernets(d), w.addresses) && k < |d.network.value.ethernets|
    ensures |doc.ethernets| == |d.network.value.ethernets| && doc.ethernets[k].name == d.network.value.ethernets[k].name
    ensures !Addressed(d, w, k) ==> doc.ethernets[k].addresses == []
    ensures Addressed(d, w, k) ==>
      var ip := w.addresses[d.name + "-" + d.network.value.ethernets[k].name];
      && ip.prefix.Some?
      && doc.ethernets[k].addresses == [ip.address + "/" + (if ip.prefix.value < 0 then "-" + Decimal(-ip.prefix.value) else Decimal(ip.prefix.value))]
  {
    assert DescribesEthernet(doc.ethernets[k], Ethernets(d)[k], FindAddress(w.addresses, d.name, Ethernets(d)[k]));
  }

  /******* From the spec to the guest and back *******/

  // Texts that need no quoting or escaping, in the spec and from the allocator.
  ghost predicate PlainInputs(d: Desired, addresses: map<string, IPAddress>) {
    && Plain(d.name)
    && (forall i :: 0 <= i < |Ethernets(d)| ==> PlainSpec(Ethernets(d)[i]))
    && (forall name :: name in addresses ==> (addresses[name].address != "" ==> Plain(addresses[name].address)) && Plain(addresses[name].gateway))
  }

  ghost predicate PlainSpec(e: EthernetSpec) {
    && Plain(e.name) && PlainAll(e.nameservers)
    && forall r :: 0 <= r < |e.routes| ==> Plain(e.routes[r].to) && PlainOption(e.routes[r].via)
  }

  // The number a text of digits is the decimal form of.
  function Number(digits: string): int {
    if digits == "" then 0 else 10 * Number(digits[..|digits| - 1]) + (digits[|digits| - 1] as int - '0' as int)
  }

  /** Numbers are printed in decimal, without leading zeros. */
  lemma {:induction false} DecimalMeans(n: nat)
    ensures Number(Decimal(n)) == n && Decimal(n) != "" && (Decimal(n)[0] == '0' ==> Decimal(n) == "0")
    ensures forall i :: 0 <= i < |Decimal(n)| ==> '0' <= Decimal(n)[i] <= '9'
  {
    DigitsOnly(n);
    if n < 10 {
      assert Decimal(n)[..0] == "";
    } else {
      DecimalMeans(n / 10);
      assert Decimal(n)[..|Decimal(n)| - 1] == Decimal(n / 10);
    }
  }

  lemma {:induction false} DigitsOnly(n: nat)
    ensures Decimal(n) != "" && forall i :: 0 <= i < |Decimal(n)| ==> '0' <= Decimal(n)[i] <= '9'
  {
    if n >= 10 {
      DigitsOnly(n / 10);
    }
  }

  predicate SignOrDigit(c: char) {
    c == '-' || '0' <= c <= '9'
  }

  lemma {:induction false} NumberText(n: int)
    ensures var text := SignedDecimal(n);
            text != "" && SignOrDigit(text[|text| - 1]) && forall i :: 0 <= i < |text| ==> SignOrDigit(text[i])
  {
    DigitsOnly(if n < 0 then -n else n);
  }

  lemma {:induction false} NotSpecial(c: char)
    requires SignOrDigit(c) || c == '/'
    ensures c !in SPECIAL && c != ':'
  {
  }

  lemma {:induction false} CidrIsPlain(address: string, n: int)
    requires Plain(address)
    ensures Plain(address + "/" + SignedDecimal(n))
  {
    var number := SignedDecimal(n);
    NumberText(n);
    var text := address + "/" + number;
    NotSpecial(number[|number| - 1]);
    forall i | 0 <= i < |text|
      ensures text[i] !in SPECIAL
    {
      if i >= |address| {
        NotSpecial(text[i]);
      }
    }
  }

  lemma {:induction false} EthernetIsPlain(out: Ethernet, e: EthernetSpec, ip: Option<IPAddress>)
    requires DescribesEthernet(out, e, ip) && PlainSpec(e)
    requires ip.Some? ==> (ip.value.address != "" ==> Plain(ip.value.address)) && Plain(ip.value.gateway)
    ensures PlainEthernet(out)
  {
    if HasAddress(ip) {
      CidrIsPlain(ip.value.address, ip.value.prefix.value);
    }
    forall r | 0 <= r < |e.routes|
      ensures Plain(out.routes[r].to) && PlainOption(out.routes[r].via)
    {
      assert RoutedBy(out.routes[r], e.routes[r], ip);
    }
  }

  lemma {:induction false} DocumentIsPlain(doc: Document, id: string, d: Desired, addresses: map<string, IPAddress>)
    requires Describes(doc, id, d.name, Ethernets(d), addresses) && PlainInputs(d, addresses) && Plain(id)
    ensures PlainDocument(doc)
  {
    forall i | 0 <= i < |doc.ethernets|
      ensures PlainEthernet(doc.ethernets[i])
    {
      EthernetIsPlain(doc.ethernets[i], Ethernets(d)[i], FindAddress(addresses, d.name, Ethernets(d)[i]));
    }
  }

  // The template engine prints what needs no escaping as the template says.
  ghost predicate Faithful(lib: Lib) {
    forall doc :: PlainDocument(doc) ==> lib.render(doc) == Print(doc)
  }

  ghost predicate Decodes(decode: string -> string, lib: Lib) {
    forall text :: decode(lib.encode(text)) == text
  }

  lemma {:induction false} RenderedIsRead(lib: Lib, decode: string -> string, doc: Document)
    requires Faithful(lib) && Decodes(decode, lib) && PlainDocument(doc)
    ensures Read(decode(lib.encode(lib.render(doc)))) == if DistinctNames(doc.ethernets) then Some(doc) else None
  {
    RoundTrip(doc);
  }

  lemma {:induction false} BootConfig(lib: Lib, d: Desired, id: string, m: Record, w: World, m': Record, w': World) returns (doc: Document)
    requires BootstrapStage(lib, d, id, m, w, m', w', Continue) && !m.bootstrapped && id in w.vms
    ensures Describes(doc, id, d.name, Ethernets(d), w.addresses) && w.secret.Some? && m.providerID.Some? && id in w'.vms
    ensures var config := w'.vms[id].config;
            && GuestInfo(MetaData) in config && config[GuestInfo(MetaData)] == lib.encode(lib.render(doc))
            && GuestInfo(UserData) in config && config[GuestInfo(UserData)] == lib.encode(lib.substitute(w.secret.value, m.providerID.value))
  {
    doc :| Describes(doc, id, d.name, Ethernets(d), w.addresses)
        && WroteAll(w, w', id, BootParams(lib, w.secret.value, m.providerID.value, doc));
    ConfigAfter(w, w', id, BootParams(lib, w.secret.value, m.providerID.value, doc));
  }

  predicate DistinctSpecNames(es: seq<EthernetSpec>) {
    forall j, k :: 0 <= j < k < |es| ==> es[j].name != es[k].name
  }

  lemma {:induction false} SameNames(doc: Document, id: string, d: Desired, addresses: map<string, IPAddress>)
    requires Describes(doc, id, d.name, Ethernets(d), addresses)
    ensures DistinctNames(doc.ethernets) <==> DistinctSpecNames(Ethernets(d))
  {
    forall i | 0 <= i < |doc.ethernets|
      ensures doc.ethernets[i].name == Ethernets(d)[i].name
    {
      assert DescribesEthernet(doc.ethernets[i], Ethernets(d)[i], FindAddress(addresses, d.name, Ethernets(d)[i]));
    }
  }

  /**
   End to end: once the stage has written, a guest that decodes its metadata and reads the YAML finds
   exactly the document that spec and allocated addresses describe if the ethernets of the spec have
   different names, and nothing it can read if two share one; and its user data with the provider id
   put in.
   */
  lemma {:induction false} GuestReadsDocument(lib: Lib, decode: string -> string, d: Desired, id: string, m: Record, w: World,
                                              m': Record, w': World) returns (doc: Document)
    requires BootstrapStage(lib, d, id, m, w, m', w', Continue) && !m.bootstrapped && id in w.vms
    requires Faithful(lib) && Decodes(decode, lib) && PlainInputs(d, w.addresses) && Plain(id)
    ensures Describes(doc, id, d.name, Ethernets(d), w.addresses)
    ensures id in w'.vms && GuestInfo(MetaData) in w'.vms[id].config && GuestInfo(UserData) in w'.vms[id].config
    ensures Read(decode(w'.vms[id].config[GuestInfo(MetaData)])) == if DistinctSpecNames(Ethernets(d)) then Some(doc) else None
    ensures w.secret.Some? && m.providerID.Some?
    ensures decode(w'.vms[id].config[GuestInfo(UserData)]) == lib.substitute(w.secret.value, m.providerID.value)
  {
    doc := BootConfig(lib, d, id, m, w, m', w');
    DocumentIsPlain(doc, id, d, w.addresses);
    SameNames(doc, id, d, w.addresses);
    RenderedIsRead(lib, decode, doc);
  }

  // An address that is not empty comes without its prefix.
  ghost predicate PrefixMissing(d: Desired, w: World) {
    d.network.Some? && exists k :: 0 <= k < |d.network.value.ethernets| && Addressed(d, w, k) && w.addresses[AddressName(d, k)].prefix.None?
  }

  /**
   What bootstrap leaves in the VM's configuration, once it is content: user data with the provider id
   put in and metadata as rendered, both encoded and both announced as base64; and nothing else.
   */
  lemma {:induction false} BootstrapParameters(lib: Lib, d: Desired, id: string, m: Record, w: World, m': Record, w': World)
    returns (doc: Document)
    requires BootstrapStage(lib, d, id, m, w, m', w', Continue) && !m.bootstrapped && id in w.vms
    ensures Describes(doc, id, d.name, Ethernets(d), w.addresses) && w.secret.Some? && m.providerID.Some? && id in w'.vms
    ensures w'.vms[id].config == w.vms[id].config
      + map[GuestInfo(UserData) := lib.encode(lib.substitute(w.secret.value, m.providerID.value)),
            GuestInfo(UserDataEncoding) := "base64",
            GuestInfo(MetaData) := lib.encode(lib.render(doc)),
            GuestInfo(MetaDataEncoding) := "base64"]
  {
    doc :| Describes(doc, id, d.name, Ethernets(d), w.addresses)
        && WroteAll(w, w', id, BootParams(lib, w.secret.value, m.providerID.value, doc));
    ConfigAfter(w, w', id, BootParams(lib, w.secret.value, m.providerID.value, doc));
  }

  /** Against services that answer, the stage dies of a nil dereference exactly when the record lacks its provider id, the spec its network, or an allocated address its prefix. */
  lemma {:induction false} BootstrapPanicsExactly(lib: Lib, d: Desired, id: string, m: Record, w: World, m': Record, w': World, out: Outcome)
    requires BootstrapStage(lib, d, id, m, w, m', w', out) && w.reliable && w.secret.Some? && id in w.vms
    ensures out == Panic <==> !m.bootstrapped && (m.providerID.None? || d.network.None? || PrefixMissing(d, w))
  {
    forall k | 0 <= k < |Ethernets(d)|
      ensures NoPrefix(FindAddress(w.addresses, d.name, Ethernets(d)[k])) <==>
        Addressed(d, w, k) && w.addresses[AddressName(d, k)].prefix.None?
    {
      assert FindAddress(w.addresses, d.name, Ethernets(d)[k]) ==
        if AddressName(d, k) in w.addresses then Some(w.addresses[AddressName(d, k)]) else None;
    }
    if !m.bootstrapped && out == Continue {
      var doc :| Describes(doc, id, d.name, Ethernets(d), w.addresses)
              && WroteAll(w, w', id, BootParams(lib, w.secret.value, m.providerID.value, doc));
      forall i | 0 <= i < |Ethernets(d)|
        ensures !NoPrefix(FindAddress(w.addresses, d.name, Ethernets(d)[i]))
      {
        assert DescribesEthernet(doc.ethernets[i], Ethernets(d)[i], FindAddress(w.addresses, d.name, Ethernets(d)[i]));
      }
    }
  }
}
