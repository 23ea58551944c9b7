/**
 The generated deep copies, on a heap of their own.  Pointers are cells and slices are arrays.  A
 struct is a value: its plain fields and its pointers.  To copy it the generated code copies the
 value, pointers included, and then gives every pointer and slice that is not nil a new object.
 */
module DeepCopy {
  import opened Options

  // What a pointer points to.
  class Cell<T> {
    var value: T

    constructor (v: T)
      ensures value == v
    {
      value := v;
    }
  }

  function Get<T>(c: Cell?<T>): Option<T>
    reads c
  {
    if c == null then None else Some(c.value)
  }

  function Owned(o: object?): set<object> {
    if o == null then {} else {o}
  }

  method CopyCell<T>(c: Cell?<T>) returns (r: Cell?<T>)
    ensures Get(r) == Get(c) && fresh(Owned(r))
  {
    if c == null {
      return null;
    }
    r := new Cell(c.value);
  }

  function FlatValue<T>(a: array?<T>): Option<seq<T>>
    reads a
  {
    if a == null then None else Some(a[..])
  }

  /** A slice of scalars is copied as a whole into a new backing array. */
  method CopyFlat<T(0)>(a: array?<T>) returns (r: array?<T>)
    ensures FlatValue(r) == FlatValue(a) && fresh(Owned(r))
  {
    if a == null {
      return null;
    }
    var out := new T[a.Length];
    for i := 0 to a.Length
      invariant out[..i] == a[..i]
    {
      out[i] := a[i];
    }
    assert out[..] == out[..a.Length] && a[..] == a[..a.Length];
    return out;
  }

  lemma {:induction false} OneLonger<T>(s: seq<T>, i: nat)
    requires i < |s|
    ensures s[..i + 1] == s[..i] + [s[i]]
  {
  }

  /******* Structs of scalars and of pointers to scalars *******/

  function Cells<A>(ptrs: seq<Cell?<A>>): set<object> {
    if ptrs == [] then {} else Cells(ptrs[..|ptrs| - 1]) + Owned(ptrs[|ptrs| - 1])
  }

  function Gets<A>(ptrs: seq<Cell?<A>>): seq<Option<A>>
    reads Cells(ptrs)
  {
    if ptrs == [] then [] else Gets(ptrs[..|ptrs| - 1]) + [Get(ptrs[|ptrs| - 1])]
  }

  datatype Struct<P, A> = Struct(plain: P, ptrs: seq<Cell?<A>>) {
    function Foot(): set<object> { Cells(ptrs) }

    function Value(): (P, seq<Option<A>>)
      reads Foot()
    {
      (plain, Gets(ptrs))
    }
  }

  lemma {:induction false} OneCellMore<A>(ptrs: seq<Cell?<A>>, c: Cell?<A>)
    ensures Cells(ptrs + [c]) == Cells(ptrs) + Owned(c)
    ensures Gets(ptrs + [c]) == Gets(ptrs) + [Get(c)]
  {
    assert (ptrs + [c])[..|ptrs|] == ptrs;
  }

  /** Field by field, every pointer that is not nil gets a new cell. */
  method CopyStruct<P, A>(s: Struct<P, A>) returns (out: Struct<P, A>)
    ensures out.Value() == s.Value() && fresh(out.Foot())
  {
    var ptrs: seq<Cell?<A>> := [];
    for i := 0 to |s.ptrs|
      invariant Gets(ptrs) == Gets(s.ptrs[..i]) && fresh(Cells(ptrs))
    {
      assert allocated(Cells(ptrs)) && allocated(Cells(s.ptrs[..i]));
      var c := CopyCell(s.ptrs[i]);
      OneCellMore(ptrs, c);
      OneCellMore(s.ptrs[..i], s.ptrs[i]);
      assert s.ptrs[..i + 1] == s.ptrs[..i] + [s.ptrs[i]];
      ptrs := ptrs + [c];
    }
    assert s.ptrs[..|s.ptrs|] == s.ptrs;
    return s.(ptrs := ptrs);
  }

  /******* Slices of such structs *******/

  function Feet<P, A>(s: seq<Struct<P, A>>): set<object> {
    if s == [] then {} else Feet(s[..|s| - 1]) + s[|s| - 1].Foot()
  }

  function Values<P, A>(s: seq<Struct<P, A>>): seq<(P, seq<Option<A>>)>
    reads Feet(s)
  {
    if s == [] then [] else Values(s[..|s| - 1]) + [s[|s| - 1].Value()]
  }

  function SliceFoot<P, A>(a: array?<Struct<P, A>>): set<object>
    reads a
  {
    if a == null then {} else {a} + Feet(a[..])
  }

  function SliceValue<P, A>(a: array?<Struct<P, A>>): Option<seq<(P, seq<Option<A>>)>>
    reads a, SliceFoot(a)
  {
    if a == null then None else Some(Values(a[..]))
  }

  lemma {:induction false} OneMore<P, A>(s: seq<Struct<P, A>>, x: Struct<P, A>)
    ensures Feet(s + [x]) == Feet(s) + x.Foot()
    ensures Values(s + [x]) == Values(s) + [x.Value()]
  {
    assert (s + [x])[..|s|] == s;
  }

  lemma {:induction false} FeetPrefix<P, A>(s: seq<Struct<P, A>>, i: nat)
    requires i <= |s|
    ensures Feet(s[..i]) <= Feet(s)
    decreases |s| - i
  {
    if i == |s| {
      assert s[..i] == s;
    } else {
      FeetPrefix(s, i + 1);
      OneMore(s[..i], s[i]);
      assert s[..i + 1] == s[..i] + [s[i]];
    }
  }

  /** Puts the copy of element i in its place, after those before it. */
  method Put<P, A>(a: array<Struct<P, A>>, out: array<Struct<P, A>>, i: nat, ghost done: seq<Struct<P, A>>, x: Struct<P, A>)
    requires i < a.Length == out.Length && done == out[..i]
    requires Values(done) == Values(a[..i]) && x.Value() == a[i].Value()
    requires out !in {a} + Feet(a[..]) + Feet(done) + x.Foot()
    modifies out
    ensures out[..i + 1] == done + [x]
    ensures Values(done) == Values(a[..i]) && x.Value() == a[i].Value()
  {
    FeetPrefix(a[..], i);
    FeetPrefix(a[..], i + 1);
    assert a[..][..i] == a[..i] && a[..][..i + 1] == a[..i] + [a[i]] == a[..i + 1];
    OneMore(a[..i], a[i]);
    out[i] := x;
  }

  /** Copies element i, after those before it. */
  method CopyNext<P, A>(a: array<Struct<P, A>>, out: array<Struct<P, A>>, i: nat, ghost done: seq<Struct<P, A>>)
    returns (ghost more: seq<Struct<P, A>>, ghost news: set<object>)
    requires i < a.Length == out.Length && done == out[..i] && Values(done) == Values(a[..i])
    requires out !in {a} + Feet(a[..]) + Feet(done)
    modifies out
    ensures more == out[..i + 1] && Values(more) == Values(a[..i + 1])
    ensures Feet(more) == Feet(done) + news && fresh(news) && out !in news
  {
    assert allocated(Feet(done)) && allocated(Feet(a[..i]));
    var x := CopyStruct(a[i]);
    Put(a, out, i, done, x);
    OneMore(done, x);
    OneMore(a[..i], a[i]);
    assert a[..i + 1] == a[..i] + [a[i]];
    more, news := done + [x], x.Foot();
  }

  method CopySlice<P(0), A(0)>(a: array?<Struct<P, A>>) returns (r: array?<Struct<P, A>>)
    ensures SliceValue(r) == SliceValue(a) && fresh(SliceFoot(r))
  {
    if a == null {
      return null;
    }
    assert allocated(Feet(a[..]));
    var out := new Struct<P, A>[a.Length];
    ghost var done: seq<Struct<P, A>>, feet: set<object> := [], {};
    for i := 0 to a.Length
      modifies out
      invariant done == out[..i] && Values(done) == Values(a[..i])
      invariant feet == Feet(done) && out !in {a} + Feet(a[..]) + feet && fresh(feet)
    {
      ghost var news: set<object>;
      done, news := CopyNext(a, out, i, done);
      feet := feet + news;
    }
    assert done == out[..] && a[..a.Length] == a[..];
    return out;
  }

  /******* The nested types of the API *******/

  type Route = Struct<string, string>               // to; via
  type Adapter = Struct<(), string>                 // type, vmnet, virtualDev
  type Folder = Struct<(string, string), int>       // folderId, hostPath; flags
  type PoolReference = Struct<(string, string), string>   // kind, name; apiGroup

  type StructValue<P, A> = (P, seq<Option<A>>)

  function PointerFoot<P, A>(c: Cell?<Struct<P, A>>): set<object>
    reads c
  {
    if c == null then {} else {c} + c.value.Foot()
  }

  function PointerValue<P, A>(c: Cell?<Struct<P, A>>): Option<StructValue<P, A>>
    reads c, PointerFoot(c)
  {
    if c == null then None else Some(c.value.Value())
  }

  method CopyPointer<P, A>(c: Cell?<Struct<P, A>>) returns (r: Cell?<Struct<P, A>>)
    ensures PointerValue(r) == PointerValue(c) && fresh(PointerFoot(r))
  {
    if c == null {
      return null;
    }
    assert allocated(PointerFoot(c));
    var s := CopyStruct(c.value);
    assert allocated(s.Foot());
    r := new Cell(s);
  }

  // flags: enabled, generatePort, generatePassword; texts: port, password
  datatype VncStruct = VncStruct(flags: Struct<(), bool>, texts: Struct<(), string>) {
    function Foot(): set<object> { flags.Foot() + texts.Foot() }

    function Value(): (StructValue<(), bool>, StructValue<(), string>)
      reads Foot()
    {
      (flags.Value(), texts.Value())
    }
  }

  method CopyVnc(v: VncStruct) returns (out: VncStruct)
    ensures out.Value() == v.Value() && fresh(out.Foot())
  {
    assert allocated(v.Foot());
    var flags := CopyStruct(v.flags);
    assert allocated(flags.Foot());
    var texts := CopyStruct(v.texts);
    out := VncStruct(flags, texts);
  }

  // flags: dhcp4, dhcp6, ipamAsNodeIP; texts: typeIP, ipamAddress
  datatype EthernetStruct = EthernetStruct(
    flags: Struct<string, bool>,
    texts: Struct<(), string>,
    ipamRef: Cell?<PoolReference>,
    nameservers: array?<string>,
    routes: array?<Route>)
  {
    function Roots(): set<object> { Owned(ipamRef) + Owned(routes) }

    function Foot(): set<object>
      reads Roots()
    {
      flags.Foot() + texts.Foot() + PointerFoot(ipamRef) + Owned(nameservers) + SliceFoot(routes)
    }

    function Value(): EthernetValue
      reads Roots(), Foot()
    {
      EthernetValue(flags.Value(), texts.Value(), PointerValue(ipamRef), FlatValue(nameservers), SliceValue(routes))
    }
  }

  datatype EthernetValue = EthernetValue(
    flags: StructValue<string, bool>,
    texts: StructValue<(), string>,
    ipamRef: Option<StructValue<(string, string), string>>,
    nameservers: Option<seq<string>>,
    routes: Option<seq<StructValue<string, string>>>)

  method CopyFields(e: EthernetStruct) returns (flags: Struct<string, bool>, texts: Struct<(), string>)
    ensures flags.Value() == e.flags.Value() && texts.Value() == e.texts.Value()
    ensures fresh(flags.Foot() + texts.Foot())
  {
    assert allocated(e.flags.Foot()) && allocated(e.texts.Foot());
    flags := CopyStruct(e.flags);
    assert allocated(flags.Foot());
    texts := CopyStruct(e.texts);
  }

  method CopyLinks(e: EthernetStruct) returns (ipamRef: Cell?<PoolReference>, nameservers: array?<string>, routes: array?<Route>)
    ensures PointerValue(ipamRef) == PointerValue(e.ipamRef) && fresh(PointerFoot(ipamRef))
    ensures FlatValue(nameservers) == FlatValue(e.nameservers) && fresh(Owned(nameservers))
    ensures SliceValue(routes) == SliceValue(e.routes) && fresh(SliceFoot(routes))
  {
    assert allocated(PointerFoot(e.ipamRef)) && allocated(SliceFoot(e.routes));
    routes := CopySlice(e.routes);
    assert allocated(SliceFoot(routes));
    ipamRef := CopyPointer(e.ipamRef);
    assert allocated(PointerFoot(ipamRef));
    nameservers := CopyFlat(e.nameservers);
  }

  method CopyEthernet(e: EthernetStruct) returns (out: EthernetStruct)
    ensures out.Value() == e.Value() && fresh(out.Foot())
  {
    assert allocated(e.Foot());
    var flags, texts := CopyFields(e);
    assert allocated(flags.Foot()) && allocated(texts.Foot());
    var ipamRef, nameservers, routes := CopyLinks(e);
    out := EthernetStruct(flags, texts, ipamRef, nameservers, routes);
  }

  /******* The slice of ethernets, whose elements own slices themselves *******/

  function EthernetRoots(s: seq<EthernetStruct>): set<object> {
    if s == [] then {} else EthernetRoots(s[..|s| - 1]) + s[|s| - 1].Roots()
  }

  function EthernetFeet(s: seq<EthernetStruct>): set<object>
    reads EthernetRoots(s)
  {
    if s == [] then {} else EthernetFeet(s[..|s| - 1]) + s[|s| - 1].Foot()
  }

  function EthernetValues(s: seq<EthernetStruct>): (values: seq<EthernetValue>)
    reads EthernetRoots(s), EthernetFeet(s)
    ensures |values| == |s|
  {
    if s == [] then [] else EthernetValues(s[..|s| - 1]) + [s[|s| - 1].Value()]
  }

  lemma {:induction false} OneEthernetMore(s: seq<EthernetStruct>, x: EthernetStruct)
    ensures EthernetRoots(s + [x]) == EthernetRoots(s) + x.Roots()
    ensures EthernetFeet(s + [x]) == EthernetFeet(s) + x.Foot()
    ensures EthernetValues(s + [x]) == EthernetValues(s) + [x.Value()]
  {
    assert (s + [x])[..|s|] == s;
  }

  twostate lemma {:induction false} RootsOwnedBefore(s: seq<EthernetStruct>)
    ensures EthernetRoots(s) <= old(EthernetFeet(s))
  {
    if s != [] {
      RootsOwnedBefore(s[..|s| - 1]);
    }
  }

  // Ethernets whose own objects did not change did not change.
  twostate lemma {:induction false} EthernetsFramed(s: seq<EthernetStruct>)
    requires forall o :: o in old(EthernetFeet(s)) ==> old(allocated(o)) && unchanged(o)
    ensures EthernetFeet(s) == old(EthernetFeet(s)) && EthernetValues(s) == old(EthernetValues(s))
  {
    RootsOwnedBefore(s);
  }

  function EthernetsFoot(a: array?<EthernetStruct>): set<object>
    reads a, if a == null then {} else EthernetRoots(a[..])
  {
    if a == null then {} else {a} + EthernetFeet(a[..])
  }

  function EthernetsValue(a: array?<EthernetStruct>): Option<seq<EthernetValue>>
    reads a, (if a == null then {} else EthernetRoots(a[..])), EthernetsFoot(a)
  {
    if a == null then None else Some(EthernetValues(a[..]))
  }

  /** The elements of the new slice, one after the other. */
  method CopyEach(s: seq<EthernetStruct>) returns (copies: seq<EthernetStruct>)
    ensures EthernetValues(copies) == EthernetValues(s) && fresh(EthernetFeet(copies))
  {
    copies := [];
    ghost var feet: set<object> := {};
    for i := 0 to |s|
      invariant EthernetValues(copies) == EthernetValues(s[..i])
      invariant feet == EthernetFeet(copies) && fresh(feet)
    {
      ghost var news: set<object>;
      copies, news := CopyOneMore(s, i, copies);
      feet := feet + news;
    }
    assert s[..|s|] == s;
  }

  method CopyOneMore(s: seq<EthernetStruct>, i: nat, copies: seq<EthernetStruct>)
    returns (more: seq<EthernetStruct>, ghost news: set<object>)
    requires i < |s| && EthernetValues(copies) == EthernetValues(s[..i])
    ensures EthernetValues(more) == EthernetValues(s[..i + 1])
    ensures EthernetFeet(more) == old(EthernetFeet(copies)) + news && fresh(news)
  {
    assert allocated(EthernetFeet(copies)) && allocated(EthernetFeet(s[..i]));
    var x := CopyEthernet(s[i]);
    EthernetsFramed(copies);
    EthernetsFramed(s[..i]);
    OneEthernetMore(copies, x);
    OneEthernetMore(s[..i], s[i]);
    OneLonger(s, i);
    more, news := copies + [x], x.Foot();
  }

  method CopyEthernets(a: array?<EthernetStruct>) returns (r: array?<EthernetStruct>)
    ensures EthernetsValue(r) == EthernetsValue(a) && fresh(EthernetsFoot(r))
  {
    if a == null {
      return null;
    }
    assert allocated(EthernetFeet(a[..]));
    var copies := CopyEach(a[..]);
    EthernetsFramed(a[..]);
    assert allocated(EthernetFeet(copies)) && allocated(EthernetFeet(a[..]));
    label Copied:
    r := NewSlice(copies);
    EthernetsFramed@Copied(a[..]);
    EthernetsFramed@Copied(copies);
  }

  method NewSlice<T(0)>(s: seq<T>) returns (r: array<T>)
    ensures r[..] == s && fresh(r)
  {
    r := new T[|s|];
    for i := 0 to |s|
      invariant r[..i] == s[..i]
    {
      r[i] := s[i];
    }
    assert r[..] == r[..|s|] && s[..|s|] == s;
  }

  /******* Network, spec and status *******/

  datatype NetworkStruct = NetworkStruct(adapters: array?<Adapter>, ethernets: array?<EthernetStruct>) {
    function Inner(): set<object> { Owned(ethernets) }

    function Roots(): set<object>
      reads Inner()
    {
      Owned(adapters) + Owned(ethernets) + if ethernets == null then {} else EthernetRoots(ethernets[..])
    }

    function Foot(): set<object>
      reads Inner(), Roots()
    {
      SliceFoot(adapters) + EthernetsFoot(ethernets)
    }

    function Value(): NetworkValue
      reads Inner(), Roots(), Foot()
    {
      NetworkValue(SliceValue(adapters), EthernetsValue(ethernets))
    }
  }

  datatype NetworkValue = NetworkValue(adapters: Option<seq<StructValue<(), string>>>, ethernets: Option<seq<EthernetValue>>)

  method CopyNetwork(n: NetworkStruct) returns (out: NetworkStruct)
    ensures out.Value() == n.Value() && fresh(out.Foot())
  {
    assert allocated(SliceFoot(n.adapters)) && allocated(EthernetsFoot(n.ethernets));
    var adapters := CopySlice(n.adapters);
    assert allocated(SliceFoot(adapters));
    var ethernets := CopyEthernets(n.ethernets);
    out := NetworkStruct(adapters, ethernets);
  }

  // A network whose own objects did not change did not change.
  twostate lemma {:induction false} NetworkFramed(n: NetworkStruct)
    requires forall o :: o in old(n.Foot()) ==> old(allocated(o)) && unchanged(o)
    ensures n.Foot() == old(n.Foot()) && n.Value() == old(n.Value())
  {
    if n.ethernets != null {
      assert n.ethernets in old(n.Foot()) && unchanged(n.ethernets);
      assert n.ethernets[..] == old(n.ethernets[..]);
      assert old(EthernetFeet(n.ethernets[..])) <= old(n.Foot());
      EthernetsFramed(n.ethernets[..]);
    }
  }

  function NetworkRoots(c: Cell?<NetworkStruct>): set<object>
    reads c, if c == null then {} else c.value.Inner()
  {
    if c == null then {} else {c} + c.value.Roots()
  }

  function NetworkFoot(c: Cell?<NetworkStruct>): set<object>
    reads c, (if c == null then {} else c.value.Inner()), NetworkRoots(c)
  {
    if c == null then {} else {c} + c.value.Foot()
  }

  function NetworkPointerValue(c: Cell?<NetworkStruct>): Option<NetworkValue>
    reads c, (if c == null then {} else c.value.Inner()), NetworkRoots(c), NetworkFoot(c)
  {
    if c == null then None else Some(c.value.Value())
  }

  method CopyNetworkCell(n: NetworkStruct) returns (r: Cell<NetworkStruct>)
    ensures r.value.Value() == n.Value() && fresh({r} + r.value.Foot())
  {
    assert allocated(n.Foot());
    var copy := CopyNetwork(n);
    NetworkFramed(n);
    assert allocated(copy.Foot()) && allocated(n.Foot());
    label Copied:
    r := new Cell(copy);
    NetworkFramed@Copied(copy);
    NetworkFramed@Copied(n);
  }

  method CopyNetworkPointer(c: Cell?<NetworkStruct>) returns (r: Cell?<NetworkStruct>)
    ensures NetworkPointerValue(r) == NetworkPointerValue(c) && fresh(NetworkFoot(r))
  {
    if c == null {
      return null;
    }
    r := CopyNetworkCell(c.value);
  }

  function VncFoot(c: Cell?<VncStruct>): set<object>
    reads c
  {
    if c == null then {} else {c} + c.value.Foot()
  }

  function VncValue(c: Cell?<VncStruct>): Option<(StructValue<(), bool>, StructValue<(), string>)>
    reads c, VncFoot(c)
  {
    if c == null then None else Some(c.value.Value())
  }

  method CopyVncPointer(c: Cell?<VncStruct>) returns (r: Cell?<VncStruct>)
    ensures VncValue(r) == VncValue(c) && fresh(VncFoot(r))
  {
    if c == null {
      return null;
    }
    assert allocated(c.value.Foot());
    var v := CopyVnc(c.value);
    assert allocated(v.Foot());
    r := new Cell(v);
  }

  // texts: templateID; providerID, vmID, networkConfig.  sizes: cpu, memory
  datatype SpecStruct = SpecStruct(
    texts: Struct<string, string>,
    sizes: Struct<(), int>,
    network: Cell?<NetworkStruct>,
    folders: array?<Folder>,
    vnc: Cell?<VncStruct>)
  {
    function Inner(): set<object>
      reads network
    {
      Owned(network) + if network == null then {} else network.value.Inner()
    }

    function Roots(): set<object>
      reads network, Inner()
    {
      Inner() + NetworkRoots(network) + Owned(folders) + Owned(vnc)
    }

    function Foot(): set<object>
      reads network, Inner(), Roots()
    {
      texts.Foot() + sizes.Foot() + NetworkFoot(network) + SliceFoot(folders) + VncFoot(vnc)
    }

    function Value(): SpecValue
      reads network, Inner(), Roots(), Foot()
    {
      SpecValue(texts.Value(), sizes.Value(), NetworkPointerValue(network), SliceValue(folders), VncValue(vnc))
    }
  }

  datatype SpecValue = SpecValue(
    texts: StructValue<string, string>,
    sizes: StructValue<(), int>,
    network: Option<NetworkValue>,
    folders: Option<seq<StructValue<(string, string), int>>>,
    vnc: Option<(StructValue<(), bool>, StructValue<(), string>)>)

  // A spec whose own objects did not change did not change.
  twostate lemma {:induction false} SpecFramed(s: SpecStruct)
    requires forall o :: o in old(s.Foot()) ==> old(allocated(o)) && unchanged(o)
    ensures s.Foot() == old(s.Foot()) && s.Value() == old(s.Value())
  {
    if s.network != null {
      assert s.network in old(s.Foot()) && unchanged(s.network);
      NetworkFramed(s.network.value);
    }
  }

  method CopySpecFields(s: SpecStruct) returns (texts: Struct<string, string>, sizes: Struct<(), int>)
    ensures texts.Value() == s.texts.Value() && sizes.Value() == s.sizes.Value()
    ensures fresh(texts.Foot() + sizes.Foot())
  {
    assert allocated(s.texts.Foot()) && allocated(s.sizes.Foot());
    texts := CopyStruct(s.texts);
    assert allocated(texts.Foot());
    sizes := CopyStruct(s.sizes);
  }

  method CopyDevices(folders: array?<Folder>, vnc: Cell?<VncStruct>) returns (folders': array?<Folder>, vnc': Cell?<VncStruct>)
    ensures SliceValue(folders') == SliceValue(folders) && fresh(SliceFoot(folders'))
    ensures VncValue(vnc') == VncValue(vnc) && fresh(VncFoot(vnc'))
  {
    assert allocated(SliceFoot(folders)) && allocated(VncFoot(vnc));
    vnc' := CopyVncPointer(vnc);
    assert allocated(VncFoot(vnc'));
    folders' := CopySlice(folders);
  }

  // All of the spec but the network.
  method CopySpecParts(s: SpecStruct)
    returns (texts: Struct<string, string>, sizes: Struct<(), int>, folders: array?<Folder>, vnc: Cell?<VncStruct>)
    ensures texts.Value() == s.texts.Value() && sizes.Value() == s.sizes.Value()
    ensures SliceValue(folders) == SliceValue(s.folders) && VncValue(vnc) == VncValue(s.vnc)
    ensures fresh(texts.Foot() + sizes.Foot()) && fresh(SliceFoot(folders)) && fresh(VncFoot(vnc))
  {
    assert allocated(s.Foot());
    texts, sizes := CopySpecFields(s);
    SpecFramed(s);
    assert allocated(texts.Foot()) && allocated(sizes.Foot());
    folders, vnc := CopyDevices(s.folders, s.vnc);
  }

  /** A copy of the spec has the same value and shares no object with it. */
  method CopySpec(s: SpecStruct) returns (out: SpecStruct)
    ensures out.Value() == s.Value() && fresh(out.Foot())
  {
    assert allocated(s.Foot());
    var texts, sizes, folders, vnc := CopySpecParts(s);
    SpecFramed(s);
    assert allocated(texts.Foot()) && allocated(sizes.Foot()) && allocated(SliceFoot(folders)) && allocated(VncFoot(vnc));
    var network := CopyNetworkPointer(s.network);
    SpecFramed(s);
    out := SpecStruct(texts, sizes, network, folders, vnc);
  }

  // plain: ready, initialization and hardware.  state: the power state.  Conditions hold no pointer.
  datatype StatusStruct = StatusStruct(
    state: Struct<(bool, bool, bool, int, int), string>,
    addresses: array?<(string, string)>,
    conditions: array?<(string, string)>,
    adapters: array?<Adapter>,
    folders: array?<Folder>,
    vnc: Cell?<VncStruct>)
  {
    function Roots(): set<object> { Owned(addresses) + Owned(conditions) + Owned(adapters) + Owned(folders) + Owned(vnc) }

    function Foot(): set<object>
      reads Roots()
    {
      state.Foot() + Owned(addresses) + Owned(conditions) + SliceFoot(adapters) + SliceFoot(folders) + VncFoot(vnc)
    }

    function Value(): StatusValue
      reads Roots(), Foot()
    {
      StatusValue(state.Value(), FlatValue(addresses), FlatValue(conditions), SliceValue(adapters), SliceValue(folders), VncValue(vnc))
    }
  }

  datatype StatusValue = StatusValue(
    state: StructValue<(bool, bool, bool, int, int), string>,
    addresses: Option<seq<(string, string)>>,
    conditions: Option<seq<(string, string)>>,
    adapters: Option<seq<StructValue<(), string>>>,
    folders: Option<seq<StructValue<(string, string), int>>>,
    vnc: Option<(StructValue<(), bool>, StructValue<(), string>)>)

  twostate lemma {:induction false} StatusFramed(s: StatusStruct)
    requires forall o :: o in old(s.Foot()) ==> old(allocated(o)) && unchanged(o)
    ensures s.Foot() == old(s.Foot()) && s.Value() == old(s.Value())
  {
    assert s.Roots() <= old(s.Foot());
  }

  method CopyState(s: StatusStruct) returns (state: Struct<(bool, bool, bool, int, int), string>, adapters: array?<Adapter>)
    ensures state.Value() == s.state.Value() && fresh(state.Foot())
    ensures SliceValue(adapters) == SliceValue(s.adapters) && fresh(SliceFoot(adapters))
  {
    assert allocated(s.state.Foot()) && allocated(SliceFoot(s.adapters));
    adapters := CopySlice(s.adapters);
    assert allocated(SliceFoot(adapters));
    state := CopyStruct(s.state);
  }

  method CopyRest(s: StatusStruct)
    returns (addresses: array?<(string, string)>, conditions: array?<(string, string)>, folders: array?<Folder>, vnc: Cell?<VncStruct>)
    ensures FlatValue(addresses) == FlatValue(s.addresses) && fresh(Owned(addresses))
    ensures FlatValue(conditions) == FlatValue(s.conditions) && fresh(Owned(conditions))
    ensures SliceValue(folders) == SliceValue(s.folders) && fresh(SliceFoot(folders))
    ensures VncValue(vnc) == VncValue(s.vnc) && fresh(VncFoot(vnc))
  {
    assert allocated(SliceFoot(s.folders)) && allocated(VncFoot(s.vnc));
    folders, vnc := CopyDevices(s.folders, s.vnc);
    assert allocated(SliceFoot(folders)) && allocated(VncFoot(vnc));
    addresses := CopyFlat(s.addresses);
    conditions := CopyFlat(s.conditions);
  }

  /** A copy of the status has the same value and shares no object with it. */
  method CopyStatus(s: StatusStruct) returns (out: StatusStruct)
    ensures out.Value() == s.Value() && fresh(out.Foot())
  {
    assert allocated(s.Foot());
    var state, adapters := CopyState(s);
    StatusFramed(s);
    assert allocated(state.Foot()) && allocated(SliceFoot(adapters));
    var addresses, conditions, folders, vnc := CopyRest(s);
    StatusFramed(s);
    out := StatusStruct(state, addresses, conditions, adapters, folders, vnc);
  }

  /******* What is done to one is not seen in the other *******/

  /** Setting the VNC port, as the controller does, in a copy. */
  method SetPortInCopy(s: SpecStruct, texts: Struct<(), string>) returns (copy: SpecStruct)
    ensures s.Value() == old(s.Value())
    ensures s.vnc != null ==> copy.vnc != null && copy.vnc.value.texts == texts
  {
    assert allocated(s.Foot());
    copy := CopySpec(s);
    SpecFramed(s);
    if copy.vnc != null {
      copy.vnc.value := copy.vnc.value.(texts := texts);
      SpecFramed(s);
    }
  }

  /** And in the original, after it was copied. */
  method SetPortInOriginal(s: SpecStruct, texts: Struct<(), string>) returns (copy: SpecStruct)
    modifies Owned(s.vnc)
    ensures copy.Value() == old(s.Value())
    ensures s.vnc != null ==> s.vnc.value.texts == texts
  {
    assert allocated(s.Foot());
    copy := CopySpec(s);
    SpecFramed(s);
    assert allocated(copy.Foot());
    if s.vnc != null {
      label Copied:
      s.vnc.value := s.vnc.value.(texts := texts);
      SpecFramed@Copied(copy);
    }
  }
}
