/**
 The VDMachine resource as values.  `Desired` is the part of the spec the controller only
 reads, `Record` the part of spec and status it writes.  A Go pointer is an `Option`; reading
 through a nil pointer is the outcome `Panic`, never a precondition.
 */
module Api {
  import opened Options

  function ProviderID(vmID: string): string {
    "vmwaredesktop://" + vmID
  }

  datatype Power = PoweredOn | PoweredOff | OtherPower(name: string)

  datatype NetAdapter = NetAdapter(kind: Option<string>, vmnet: Option<string>, virtualDev: Option<string>)

  datatype PoolRef = PoolRef(apiGroup: string, kind: string, name: string)

  datatype IpamRef = IpamRef(apiGroup: Option<string>, kind: string, name: string)

  datatype RouteSpec = RouteSpec(to: string, via: Option<string>)

  datatype EthernetSpec = EthernetSpec(
    name: string,
    dhcp4: Option<bool>,
    dhcp6: Option<bool>,
    typeIP: Option<string>,
    ipamAsNodeIP: Option<bool>,
    ipamRef: Option<IpamRef>,
    nameservers: seq<string>,
    routes: seq<RouteSpec>)

  // `adapters` distinguishes a nil slice (None) from an empty one.
  datatype NetworkSpec = NetworkSpec(adapters: Option<seq<NetAdapter>>, ethernets: seq<EthernetSpec>)

  datatype SharedFolder = SharedFolder(id: string, hostPath: string, flags: Option<int>)

  datatype Vnc = Vnc(
    enabled: Option<bool>,
    port: Option<string>,
    password: Option<string>,
    generatePort: Option<bool>,
    generatePassword: Option<bool>)

  datatype Hardware = Hardware(cpu: int, memory: int)

  datatype MachineAddress = MachineAddress(kind: string, address: string)

  datatype Desired = Desired(
    name: string,
    templateID: string,
    cpu: Option<int>,
    memory: Option<int>,
    network: Option<NetworkSpec>,
    folders: seq<SharedFolder>)

  datatype Record = Record(
    finalizer: bool,
    deleting: bool,
    vmID: Option<string>,
    providerID: Option<string>,
    vnc: Option<Vnc>,
    state: Option<Power>,
    hardware: Hardware,
    adapters: Option<seq<NetAdapter>>,
    sharedFolders: seq<SharedFolder>,
    vncStatus: Option<Vnc>,
    addresses: seq<MachineAddress>,
    ready: bool,
    provisioned: bool,
    bootstrapped: bool)

  // How a stage ends: the next stage runs, or the pass ends asking to be run again, with an
  // error, or in a nil dereference.
  datatype Outcome = Continue | Requeue | Error | Panic

  function Ethernets(d: Desired): seq<EthernetSpec> {
    if d.network.Some? then d.network.value.ethernets else []
  }

  function WantedAdapters(d: Desired): Option<seq<NetAdapter>> {
    if d.network.Some? then d.network.value.adapters else None
  }

  // The record as it is read back: an empty slice with `omitempty` is not stored.
  function Persist(m: Record): Record {
    if m.adapters == Some([]) then m.(adapters := None) else m
  }

  /** The object a pass works on, filled from the stored record at its start. */
  class VDMachine {
    const desired: Desired
    var finalizer: bool
    var deleting: bool
    var vmID: Option<string>
    var providerID: Option<string>
    var vnc: Option<Vnc>
    var state: Option<Power>
    var hardware: Hardware
    var adapters: Option<seq<NetAdapter>>
    var sharedFolders: seq<SharedFolder>
    var vncStatus: Option<Vnc>
    var addresses: seq<MachineAddress>
    var ready: bool
    var provisioned: bool
    var bootstrapped: bool

    function Rec(): Record
      reads this
    {
      Record(finalizer, deleting, vmID, providerID, vnc, state, hardware, adapters, sharedFolders,
             vncStatus, addresses, ready, provisioned, bootstrapped)
    }

    constructor (d: Desired, m: Record)
      ensures desired == d && Rec() == m
    {
      desired := d;
      finalizer, deleting, vmID, providerID, vnc := m.finalizer, m.deleting, m.vmID, m.providerID, m.vnc;
      state, hardware, adapters, sharedFolders := m.state, m.hardware, m.adapters, m.sharedFolders;
      vncStatus, addresses, ready := m.vncStatus, m.addresses, m.ready;
      provisioned, bootstrapped := m.provisioned, m.bootstrapped;
    }
  }
}
