/** IPAM: claim an address for each ethernet that refers to a pool, stopping at the first unanswered claim. */
module Claims {
  import opened Options
  import opened Api
  import opened Cloud

  function ClaimName(machine: string, e: EthernetSpec): string {
    machine + "-" + e.name
  }

  // The address object answering the claim of `e`, if it has an address yet.
  predicate Resolved(addresses: map<string, IPAddress>, machine: string, e: EthernetSpec) {
    e.ipamRef.None? ||
    (ClaimName(machine, e) in addresses && addresses[ClaimName(machine, e)].address != "")
  }

  function FirstUnresolved(addresses: map<string, IPAddress>, machine: string, es: seq<EthernetSpec>): (i: nat)
    ensures i <= |es|
    ensures forall j :: 0 <= j < i ==> Resolved(addresses, machine, es[j])
    ensures i < |es| ==> !Resolved(addresses, machine, es[i])
  {
    if es == [] || !Resolved(addresses, machine, es[0]) then 0
    else 1 + FirstUnresolved(addresses, machine, es[1..])
  }

  // The claims after one was made for `e`, if it refers to a pool and had none.
  function WithClaim(claims: map<string, PoolRef>, machine: string, e: EthernetSpec): map<string, PoolRef> {
    if e.ipamRef.None? || ClaimName(machine, e) in claims then claims
    else claims[ClaimName(machine, e) := Pool(e.ipamRef.value)]
  }

  function NewClaim(claims: map<string, PoolRef>, machine: string, e: EthernetSpec): seq<string> {
    if e.ipamRef.None? || ClaimName(machine, e) in claims then [] else [ClaimName(machine, e)]
  }

  // The same for each of `es` in order.
  function EnsureClaims(claims: map<string, PoolRef>, machine: string, es: seq<EthernetSpec>): map<string, PoolRef> {
    if es == [] then claims
    else WithClaim(EnsureClaims(claims, machine, es[..|es| - 1]), machine, es[|es| - 1])
  }

  function NewClaims(claims: map<string, PoolRef>, machine: string, es: seq<EthernetSpec>): seq<string> {
    if es == [] then []
    else
      var before := es[..|es| - 1];
      NewClaims(claims, machine, before) + NewClaim(EnsureClaims(claims, machine, before), machine, es[|es| - 1])
  }

  function Pool(r: IpamRef): PoolRef {
    PoolRef(r.apiGroup.GetOr(""), r.kind, r.name)
  }

  // Creating this claim would read a nil API group.
  predicate Unclaimable(claims: map<string, PoolRef>, machine: string, e: EthernetSpec) {
    e.ipamRef.Some? && e.ipamRef.value.apiGroup.None? && ClaimName(machine, e) !in claims
  }

  // No claim that `es` needs in turn reads a nil API group.
  ghost predicate Claimable(claims: map<string, PoolRef>, machine: string, es: seq<EthernetSpec>) {
    forall j :: 0 <= j < |es| ==> !Unclaimable(EnsureClaims(claims, machine, es[..j]), machine, es[j])
  }

  ghost predicate Claimed(w: World, w': World, machine: string, es: seq<EthernetSpec>) {
    && Claimable(w.claims, machine, es)
    && w' == w.(claims := EnsureClaims(w.claims, machine, es), claimLog := w.claimLog + NewClaims(w.claims, machine, es))
  }

  // Claims were made for some of the first ethernets, at most up to the first whose claim is unanswered.
  ghost predicate ClaimedInOrder(d: Desired, w: World, w': World) {
    var es := Ethernets(d);
    exists k: nat :: k <= |es| && k <= FirstUnresolved(w.addresses, d.name, es) + 1 && Claimed(w, w', d.name, es[..k])
  }

  ghost predicate ClaimsStage(d: Desired, m: Record, w: World, m': Record, w': World, out: Outcome) {
    var es := Ethernets(d);
    var stop := FirstUnresolved(w.addresses, d.name, es);
    && m' == m
    && match out
       case Continue => stop == |es| && Claimed(w, w', d.name, es)
       case Requeue => stop < |es| && Claimed(w, w', d.name, es[..stop + 1])
       case Error => !w.reliable && exists k: nat :: k <= |es| && k <= stop + 1 && Claimed(w, w', d.name, es[..k])
       case Panic =>
         exists k: nat :: k < |es| && k <= stop && Claimed(w, w', d.name, es[..k]) && Unclaimable(w'.claims, d.name, es[k])
  }

  /** Makes sure `e` has a claim. */
  method EnsureClaim(kube: Cluster, machine: string, e: EthernetSpec) returns (out: Outcome)
    requires e.ipamRef.Some?
    modifies kube`claims, kube`claimLog
    ensures out != Requeue && (kube.reliable ==> out != Error)
    ensures out == Panic ==> Unclaimable(kube.claims, machine, e)
    ensures if out == Continue then
              && !Unclaimable(old(kube.claims), machine, e)
              && kube.claims == WithClaim(old(kube.claims), machine, e)
              && kube.claimLog == old(kube.claimLog) + NewClaim(old(kube.claims), machine, e)
            else kube.claims == old(kube.claims) && kube.claimLog == old(kube.claimLog)
  {
    var name := ClaimName(machine, e);
    var claim := kube.GetClaim(name);
    if claim.Failed? {
      return Error;
    }
    if claim.NotFound? {
      if e.ipamRef.value.apiGroup.None? {
        return Panic;
      }
      var ok := kube.CreateClaim(name, Pool(e.ipamRef.value));
      if !ok {
        return Error;
      }
    }
    return Continue;
  }

  lemma {:induction false} OneMoreClaim(w: World, w1: World, w2: World, machine: string, es: seq<EthernetSpec>, k: nat)
    requires k < |es| && Claimed(w, w1, machine, es[..k])
    requires !Unclaimable(w1.claims, machine, es[k])
    requires w2 == w1.(claims := WithClaim(w1.claims, machine, es[k]), claimLog := w1.claimLog + NewClaim(w1.claims, machine, es[k]))
    ensures Claimed(w, w2, machine, es[..k + 1])
  {
    var more := es[..k + 1];
    assert more[..k] == es[..k] && more[k] == es[k];
    forall j | 0 <= j <= k
      ensures !Unclaimable(EnsureClaims(w.claims, machine, more[..j]), machine, more[j])
    {
      assert more[..j] == es[..k][..j] || j == k;
    }
    assert w2.claimLog == w.claimLog + NewClaims(w.claims, machine, more);
  }

  /** One ethernet's claim, lifted to the claims of those up to it. */
  method ClaimNext(ghost hv: Hypervisor, kube: Cluster, machine: string, es: seq<EthernetSpec>, i: nat, ghost w: World)
    returns (out: Outcome)
    requires i < |es| && Claimed(w, Seen(hv, kube), machine, es[..i])
    modifies kube`claims, kube`claimLog
    ensures out != Requeue && (kube.reliable ==> out != Error)
    ensures out == Panic ==> Unclaimable(kube.claims, machine, es[i])
    ensures Claimed(w, Seen(hv, kube), machine, if out == Continue then es[..i + 1] else es[..i])
  {
    ghost var w1 := Seen(hv, kube);
    out := Continue;
    if es[i].ipamRef.Some? {
      out := EnsureClaim(kube, machine, es[i]);
    } else {
      assert w1.claimLog + [] == w1.claimLog;
    }
    if out == Continue {
      OneMoreClaim(w, w1, Seen(hv, kube), machine, es, i);
    }
  }

  /** Whether the claim of `e` was answered. */
  method AwaitAddress(kube: Cluster, machine: string, e: EthernetSpec) returns (out: Outcome)
    ensures out != Panic && (kube.reliable ==> out != Error)
    ensures out == Continue ==> Resolved(kube.addresses, machine, e)
    ensures out == Requeue ==> !Resolved(kube.addresses, machine, e)
  {
    if e.ipamRef.None? {
      return Continue;
    }
    var address := kube.GetAddress(ClaimName(machine, e));
    if address.Failed? {
      return Error;
    }
    return if address.NotFound? || address.value.address == "" then Requeue else Continue;
  }

  // The loop over the ethernets stopped with `out` after claims for the first `k`.
  lemma {:induction false} Stopped(d: Desired, m: Record, w: World, w': World, k: nat, out: Outcome)
    requires k <= |Ethernets(d)| && k <= FirstUnresolved(w.addresses, d.name, Ethernets(d)) + 1
    requires Claimed(w, w', d.name, Ethernets(d)[..k])
    requires match out
             case Continue => k == |Ethernets(d)| && FirstUnresolved(w.addresses, d.name, Ethernets(d)) == k
             case Requeue => k == FirstUnresolved(w.addresses, d.name, Ethernets(d)) + 1
             case Error => !w.reliable
             case Panic =>
               && k < |Ethernets(d)| && k <= FirstUnresolved(w.addresses, d.name, Ethernets(d))
               && Unclaimable(w'.claims, d.name, Ethernets(d)[k])
    ensures ClaimsStage(d, m, w, m, w', out)
  {
    assert k == |Ethernets(d)| ==> Ethernets(d)[..k] == Ethernets(d);
  }

  /** One ethernet: its claim, then its address. */
  method ClaimAndAwait(ghost hv: Hypervisor, kube: Cluster, m: VDMachine, i: nat, ghost w: World) returns (out: Outcome)
    requires i < |Ethernets(m.desired)| && i <= FirstUnresolved(w.addresses, m.desired.name, Ethernets(m.desired))
    requires Claimed(w, Seen(hv, kube), m.desired.name, Ethernets(m.desired)[..i])
    modifies kube`claims, kube`claimLog
    ensures if out == Continue then
              && i < FirstUnresolved(w.addresses, m.desired.name, Ethernets(m.desired))
              && Claimed(w, Seen(hv, kube), m.desired.name, Ethernets(m.desired)[..i + 1])
            else ClaimsStage(m.desired, m.Rec(), w, m.Rec(), Seen(hv, kube), out)
  {
    var es, name := Ethernets(m.desired), m.desired.name;
    out := ClaimNext(hv, kube, name, es, i, w);
    if out != Continue {
      Stopped(m.desired, m.Rec(), w, Seen(hv, kube), i, out);
      return;
    }
    out := AwaitAddress(kube, name, es[i]);
    if out != Continue {
      Stopped(m.desired, m.Rec(), w, Seen(hv, kube), i + 1, out);
    }
  }

  method ReconcileNetworkAddresses(ghost hv: Hypervisor, kube: Cluster, m: VDMachine) returns (out: Outcome)
    modifies kube`claims, kube`claimLog
    ensures ClaimsStage(m.desired, old(m.Rec()), old(Seen(hv, kube)), m.Rec(), Seen(hv, kube), out)
  {
    ghost var w := Seen(hv, kube);
    var es := Ethernets(m.desired);
    assert w.claimLog + [] == w.claimLog;
    var i := 0;
    while i < |es|
      invariant i <= |es| && i <= FirstUnresolved(w.addresses, m.desired.name, es)
      invariant Claimed(w, Seen(hv, kube), m.desired.name, es[..i])
    {
      out := ClaimAndAwait(hv, kube, m, i, w);
      if out != Continue {
        return;
      }
      i := i + 1;
    }
    out := Continue;
    Stopped(m.desired, m.Rec(), w, Seen(hv, kube), i, out);
  }
}
