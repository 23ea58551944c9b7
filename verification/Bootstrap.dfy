/** Bootstrap data: describe the network as found, then write the four guestinfo parameters. */
module Bootstrap {
  import opened Options
  import opened Api
  import opened Cloud
  import opened Claims
  import opened Metadata
  import opened VncSettings

  datatype Ip = Ip(text: string, v4: bool)

  // The library functions the controller calls: CIDR parsing, base64, string replacement and the
  // template engine, which prints as `Print` says where it has nothing to escape.  Every result
  // below holds for all of them, unless it says what it asks of them.
  datatype Lib = Lib(
    parseCidr: string -> Option<Ip>,
    encode: string -> string,
    substitute: (string, string) -> string,
    render: Document -> string)

  function SignedDecimal(n: int): string {
    if n < 0 then "-" + Decimal(-n) else Decimal(n)
  }

  function FindAddress(addresses: map<string, IPAddress>, machine: string, e: EthernetSpec): Option<IPAddress> {
    if ClaimName(machine, e) in addresses then Some(addresses[ClaimName(machine, e)]) else None
  }

  predicate HasAddress(ip: Option<IPAddress>) {
    ip.Some? && ip.value.address != ""
  }

  // Printing this address reads a nil prefix.
  predicate NoPrefix(ip: Option<IPAddress>) {
    HasAddress(ip) && ip.value.prefix.None?
  }

  predicate NamesNode(e: EthernetSpec, ip: Option<IPAddress>) {
    HasAddress(ip) && e.ipamAsNodeIP == Some(true)
  }

  // `out` describes `e`, whose address object is `ip`.
  ghost predicate DescribesEthernet(out: Ethernet, e: EthernetSpec, ip: Option<IPAddress>) {
    && out.name == e.name && out.dhcp4 == e.dhcp4 && out.dhcp6 == e.dhcp6
    && out.gateway4.None? && out.gateway6.None? && out.nameservers == e.nameservers
    && (if HasAddress(ip) then
          ip.value.prefix.Some? && out.addresses == [ip.value.address + "/" + SignedDecimal(ip.value.prefix.value)]
        else out.addresses == [])
    && |out.routes| == |e.routes|
    && forall i :: 0 <= i < |e.routes| ==> RoutedBy(out.routes[i], e.routes[i], ip)
  }

  ghost predicate RoutedBy(out: Route, r: RouteSpec, ip: Option<IPAddress>) {
    && out.to == r.to
    && out.via == if r.via.Some? then r.via else if ip.Some? then Some(ip.value.gateway) else None
  }

  // The node address is that of the last ethernet flagged for it that has one.
  ghost predicate IsNodeIP(nodeIP: Option<string>, machine: string, es: seq<EthernetSpec>, addresses: map<string, IPAddress>) {
    && (nodeIP.None? ==> forall i :: 0 <= i < |es| ==> !NamesNode(es[i], FindAddress(addresses, machine, es[i])))
    && (nodeIP.Some? ==> exists i ::
          && 0 <= i < |es| && NamesNode(es[i], FindAddress(addresses, machine, es[i]))
          && nodeIP == Some(FindAddress(addresses, machine, es[i]).value.address)
          && forall j :: i < j < |es| ==> !NamesNode(es[j], FindAddress(addresses, machine, es[j])))
  }

  ghost predicate Describes(doc: Document, id: string, machine: string, es: seq<EthernetSpec>, addresses: map<string, IPAddress>) {
    && doc.instanceId == id && doc.hostname == machine
    && |doc.ethernets| == |es|
    && (forall i :: 0 <= i < |es| ==> DescribesEthernet(doc.ethernets[i], es[i], FindAddress(addresses, machine, es[i])))
    && IsNodeIP(doc.nodeIP, machine, es, addresses)
  }

  function BootParams(lib: Lib, data: string, providerID: string, doc: Document): map<Key, string> {
    map[GuestInfo(UserData) := lib.encode(lib.substitute(data, providerID)),
        GuestInfo(UserDataEncoding) := "base64",
        GuestInfo(MetaData) := lib.encode(lib.render(doc)),
        GuestInfo(MetaDataEncoding) := "base64"]
  }

  ghost predicate BootstrapStage(lib: Lib, d: Desired, id: string, m: Record, w: World, m': Record, w': World, out: Outcome) {
    if m.bootstrapped then
      out == Continue && m' == m && w' == w
    else
      match out
      case Continue =>
        && m' == m.(bootstrapped := true)
        && w.secret.Some? && m.providerID.Some? && d.network.Some?
        && exists doc :: Describes(doc, id, d.name, Ethernets(d), w.addresses)
                      && WroteAll(w, w', id, BootParams(lib, w.secret.value, m.providerID.value, doc))
      case Error =>
        && m' == m
        && if w' == w then !(w.reliable && w.secret.Some? && id in w.vms)
           else
             && !w.reliable
             && w.secret.Some? && m.providerID.Some? && d.network.Some?
             && exists doc :: Describes(doc, id, d.name, Ethernets(d), w.addresses)
                           && WroteSome(w, w', id, BootParams(lib, w.secret.value, m.providerID.value, doc))
      case Panic =>
        && m' == m && w' == w
        && (m.providerID.None? || d.network.None? ||
            exists i :: 0 <= i < |Ethernets(d)| && NoPrefix(FindAddress(w.addresses, d.name, Ethernets(d)[i])))
      case Requeue => false
  }

  method FindIpamAddress(kube: Cluster, machine: string, e: EthernetSpec) returns (ok: bool, ip: Option<IPAddress>)
    ensures ok ==> ip == FindAddress(kube.addresses, machine, e)
    ensures kube.reliable ==> ok
  {
    var reply := kube.GetAddress(ClaimName(machine, e));
    ok := !reply.Failed?;
    ip := if reply.Ok? then Some(reply.value) else None;
  }

  method BuildRoutes(e: EthernetSpec, ip: Option<IPAddress>) returns (routes: seq<Route>)
    ensures |routes| == |e.routes| && forall i :: 0 <= i < |routes| ==> RoutedBy(routes[i], e.routes[i], ip)
  {
    routes := [];
    for i := 0 to |e.routes|
      invariant |routes| == i && forall j :: 0 <= j < i ==> RoutedBy(routes[j], e.routes[j], ip)
    {
      var r := Route(e.routes[i].to, e.routes[i].via);
      if r.via.None? && ip.Some? {
        r := r.(via := Some(ip.value.gateway));
      }
      routes := routes + [r];
    }
  }

  method BuildEthernet(e: EthernetSpec, ip: Option<IPAddress>) returns (out: Ethernet)
    requires !NoPrefix(ip)
    ensures DescribesEthernet(out, e, ip)
  {
    var addresses: seq<string> := [];
    if HasAddress(ip) {
      addresses := addresses + [ip.value.address + "/" + SignedDecimal(ip.value.prefix.value)];
    }
    var routes := BuildRoutes(e, ip);
    out := Ethernet(e.name, e.dhcp4, e.dhcp6, None, None, addresses, e.nameservers, routes);
  }

  /** Everything about the network that goes into the document. */
  method BuildDocument(kube: Cluster, id: string, machine: string, es: seq<EthernetSpec>) returns (out: Outcome, doc: Document)
    ensures out != Requeue && (kube.reliable ==> out != Error)
    ensures out == Continue ==> Describes(doc, id, machine, es, kube.addresses)
    ensures out == Panic ==> exists i :: 0 <= i < |es| && NoPrefix(FindAddress(kube.addresses, machine, es[i]))
  {
    var ethernets: seq<Ethernet>, nodeIP := [], None;
    doc := Document(id, machine, None, []);
    for i := 0 to |es|
      invariant |ethernets| == i
      invariant forall j :: 0 <= j < i ==> DescribesEthernet(ethernets[j], es[j], FindAddress(kube.addresses, machine, es[j]))
      invariant IsNodeIP(nodeIP, machine, es[..i], kube.addresses)
    {
      var ok, ip := FindIpamAddress(kube, machine, es[i]);
      if !ok {
        return Error, doc;
      }
      if NoPrefix(ip) {
        return Panic, doc;
      }
      NextNodeIP(nodeIP, machine, es, i, kube.addresses);
      if NamesNode(es[i], ip) {
        nodeIP := Some(ip.value.address);
      }
      var ethernet := BuildEthernet(es[i], ip);
      ethernets := ethernets + [ethernet];
    }
    assert es[..|es|] == es;
    return Continue, Document(id, machine, nodeIP, ethernets);
  }

  lemma {:induction false} NextNodeIP(nodeIP: Option<string>, machine: string, es: seq<EthernetSpec>, k: nat,
                                      addresses: map<string, IPAddress>)
    requires k < |es| && IsNodeIP(nodeIP, machine, es[..k], addresses)
    ensures var ip := FindAddress(addresses, machine, es[k]);
            IsNodeIP(if NamesNode(es[k], ip) then Some(ip.value.address) else nodeIP, machine, es[..k + 1], addresses)
  {
    assert forall i :: 0 <= i < k ==> es[..k + 1][i] == es[..k][i];
    assert es[..k + 1][k] == es[k];
  }

  method ReconcileBootstrapData(lib: Lib, hv: Hypervisor, kube: Cluster, id: string, m: VDMachine) returns (out: Outcome)
    modifies hv`vms, hv`log, m`bootstrapped
    ensures BootstrapStage(lib, m.desired, id, old(m.Rec()), old(Seen(hv, kube)), m.Rec(), Seen(hv, kube), out)
  {
    if m.bootstrapped {
      return Continue;
    }
    var data := kube.GetSecretData();
    if !data.Ok? {
      return Error;
    }
    if m.providerID.None? || m.desired.network.None? {
      return Panic;
    }
    var doc: Document;
    out, doc := BuildDocument(kube, id, m.desired.name, Ethernets(m.desired));
    if out != Continue {
      return;
    }
    ghost var w := Seen(hv, kube);
    var params := BootParams(lib, data.value, m.providerID.value, doc);
    var ok := hv.WriteParams(id, params, kube);
    if !ok {
      return Error;
    }
    m.bootstrapped := true;
    return Continue;
  }
}
