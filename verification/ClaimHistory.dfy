/** IPAM claims over one pass and over whole runs. */
module ClaimHistory {
  import opened Options
  import opened Api
  import opened Cloud
  import opened Claims
  import opened Bootstrap
  import opened System
  import opened Moves

  // The claim names of the pool references of `es`.
  function Refs(machine: string, es: seq<EthernetSpec>): set<string> {
    set k | 0 <= k < |es| && es[k].ipamRef.Some? :: ClaimName(machine, es[k])
  }

  predicate NoDuplicates(names: seq<string>) {
    forall i, j :: 0 <= i < j < |names| ==> names[i] != names[j]
  }

  lemma {:induction false} ClaimNamesDiffer(machine: string, a: EthernetSpec, b: EthernetSpec)
    ensures ClaimName(machine, a) == ClaimName(machine, b) <==> a.name == b.name
  {
    var n := |machine + "-"|;
    assert ClaimName(machine, a)[n..] == a.name && ClaimName(machine, b)[n..] == b.name;
  }

  /**
   The claims of two machines, of a namespace they share, have the same name exactly if machine and
   ethernet do, or one machine's name goes on where the other's ends, and the other's ethernet has
   the rest.
   */
  lemma {:induction false} ClaimsCoincideExactly(machine: string, a: EthernetSpec, other: string, b: EthernetSpec)
    ensures ClaimName(machine, a) == ClaimName(other, b) <==>
      || (machine == other && a.name == b.name)
      || (exists x :: machine == other + "-" + x && b.name == x + "-" + a.name)
      || (exists x :: other == machine + "-" + x && a.name == x + "-" + b.name)
  {
    if ClaimName(machine, a) == ClaimName(other, b) {
      if |machine| >= |other| {
        Overlap(machine, a.name, other, b.name);
      } else {
        Overlap(other, b.name, machine, a.name);
      }
    }
    forall x | machine == other + "-" + x && b.name == x + "-" + a.name
      ensures ClaimName(machine, a) == ClaimName(other, b)
    {
      Rejoined(other, x, a.name);
    }
    forall x | other == machine + "-" + x && a.name == x + "-" + b.name
      ensures ClaimName(machine, a) == ClaimName(other, b)
    {
      Rejoined(machine, x, b.name);
    }
  }

  lemma {:induction false} Rejoined(a: string, x: string, b: string)
    ensures (a + "-" + x) + "-" + b == a + "-" + (x + "-" + b)
  {
  }

  lemma {:induction false} Overlap(m: string, a: string, n: string, b: string)
    requires m + "-" + a == n + "-" + b && |m| >= |n|
    ensures (m == n && a == b) || exists x :: m == n + "-" + x && b == x + "-" + a
  {
    var s := m + "-" + a;
    assert s[..|m|] == m && s[|m|] == '-' && s[|m| + 1..] == a;
    assert s[..|n|] == n && s[|n|] == '-' && s[|n| + 1..] == b;
    if |m| > |n| {
      var x := m[|n| + 1..];
      assert m == m[..|n|] + [m[|n|]] + x;
      assert b == s[|n| + 1..|m|] + s[|m|..];
      assert m == n + "-" + x && b == x + "-" + a;
    }
  }

  // An ethernet that takes its address from a pool, and asks for nothing else.
  function PoolBacked(name: string): EthernetSpec {
    EthernetSpec(name, None, None, None, None, Some(IpamRef(Some("ipam"), "Pool", "pool")), [], [])
  }

  /** Machine "cp" with an ethernet "0-eth0" and machine "cp-0" with "eth0" find and use one claim. */
  lemma {:induction false} ClaimShared(claims: map<string, PoolRef>)
    ensures "cp-0-eth0" in EnsureClaims(claims, "cp", [PoolBacked("0-eth0")])
    ensures var first := EnsureClaims(claims, "cp", [PoolBacked("0-eth0")]);
            EnsureClaims(first, "cp-0", [PoolBacked("eth0")]) == first && NewClaims(first, "cp-0", [PoolBacked("eth0")]) == []
  {
    var a, b := [PoolBacked("0-eth0")], [PoolBacked("eth0")];
    assert a[..0] == [] && b[..0] == [];
    assert ClaimName("cp", a[0]) == "cp-0-eth0";
    assert ClaimName("cp-0", b[0]) == "cp-0-eth0";
  }

  /** So no two machines share a claim if ethernets are named without a dash. */
  lemma {:induction false} ClaimsApart(machine: string, a: EthernetSpec, other: string, b: EthernetSpec)
    requires '-' !in a.name && '-' !in b.name
    ensures ClaimName(machine, a) == ClaimName(other, b) <==> machine == other && a.name == b.name
  {
    ClaimsCoincideExactly(machine, a, other, b);
    assert forall x: string, y: string :: '-' in x + "-" + y;
  }

  lemma {:induction false} RefsGrow(machine: string, es: seq<EthernetSpec>)
    requires es != []
    ensures var before, last := es[..|es| - 1], es[|es| - 1];
            Refs(machine, es) == Refs(machine, before) + if last.ipamRef.Some? then {ClaimName(machine, last)} else {}
  {
    var before := es[..|es| - 1];
    assert forall k :: 0 <= k < |before| ==> es[k] == before[k];
  }

  lemma {:induction false} AppendNew(names: seq<string>, more: seq<string>)
    requires NoDuplicates(names) && NoDuplicates(more)
    requires forall name :: name in more ==> name !in names
    ensures NoDuplicates(names + more)
  {
    var all := names + more;
    forall i, j | 0 <= i < j < |all|
      ensures all[i] != all[j]
    {
      if i < |names| <= j {
        assert all[j] in more;
      }
    }
  }

  // Claims are made for the references that had none, each once.
  lemma {:induction false} ClaimsMade(claims: map<string, PoolRef>, machine: string, es: seq<EthernetSpec>)
    ensures EnsureClaims(claims, machine, es).Keys == claims.Keys + Refs(machine, es)
    ensures NoDuplicates(NewClaims(claims, machine, es))
    ensures forall name :: name in NewClaims(claims, machine, es) <==> name in Refs(machine, es) - claims.Keys
  {
    if es != [] {
      var before := es[..|es| - 1];
      ClaimsMade(claims, machine, before);
      RefsGrow(machine, es);
      AppendNew(NewClaims(claims, machine, before), NewClaim(EnsureClaims(claims, machine, before), machine, es[|es| - 1]));
    }
  }

  // A claim made by the pass asks the pool of the first reference by its name.
  lemma {:induction false} ClaimedFromPool(claims: map<string, PoolRef>, machine: string, es: seq<EthernetSpec>, name: string) returns (k: nat)
    requires name in Refs(machine, es) - claims.Keys
    ensures k < |es| && es[k].ipamRef.Some? && ClaimName(machine, es[k]) == name
    ensures forall j :: 0 <= j < k && es[j].ipamRef.Some? ==> ClaimName(machine, es[j]) != name
    ensures name in EnsureClaims(claims, machine, es) && EnsureClaims(claims, machine, es)[name]
         == PoolRef(if es[k].ipamRef.value.apiGroup.Some? then es[k].ipamRef.value.apiGroup.value else "",
                    es[k].ipamRef.value.kind, es[k].ipamRef.value.name)
  {
    var before := es[..|es| - 1];
    RefsGrow(machine, es);
    ClaimsMade(claims, machine, before);
    if name in Refs(machine, before) {
      k := ClaimedFromPool(claims, machine, before, name);
    } else {
      k := |es| - 1;
      forall j | 0 <= j < k && es[j].ipamRef.Some?
        ensures ClaimName(machine, es[j]) != name
      {
        assert before[j] == es[j];
      }
    }
  }

  // Claims that exist keep their pool.
  lemma {:induction false} ClaimsKeepPool(claims: map<string, PoolRef>, machine: string, es: seq<EthernetSpec>, name: string)
    requires name in claims
    ensures name in EnsureClaims(claims, machine, es) && EnsureClaims(claims, machine, es)[name] == claims[name]
  {
    if es != [] {
      ClaimsKeepPool(claims, machine, es[..|es| - 1], name);
    }
  }

  /**
   A pass of the stage without error: afterwards there is a claim for every reference up to and
   including the first unanswered one, none for later references that had none, and the stage
   passes exactly when no reference is unanswered.
   */
  lemma {:induction false} ClaimedUpToFirstUnresolved(d: Desired, m: Record, w: World, m': Record, w': World, out: Outcome)
    requires ClaimsStage(d, m, w, m', w', out) && (out == Continue || out == Requeue)
    ensures var es := Ethernets(d);
            var stop := FirstUnresolved(w.addresses, d.name, es);
            var reached := if stop < |es| then es[..stop + 1] else es;
            w'.claims.Keys == w.claims.Keys + Refs(d.name, reached)
    ensures out == Continue <==> forall k :: 0 <= k < |Ethernets(d)| ==> Resolved(w.addresses, d.name, Ethernets(d)[k])
  {
    var es := Ethernets(d);
    var stop := FirstUnresolved(w.addresses, d.name, es);
    ClaimsMade(w.claims, d.name, if stop < |es| then es[..stop + 1] else es);
  }

  // The name of a claim, or of its address, in the source's words.
  ghost predicate ClaimOf(d: Desired, name: string) {
    d.network.Some? && exists k ::
      && 0 <= k < |d.network.value.ethernets| && d.network.value.ethernets[k].ipamRef.Some?
      && name == d.name + "-" + d.network.value.ethernets[k].name
  }

  /**
   Whatever the stage claims is named after the machine and an ethernet of it that refers to a pool,
   joined by a dash; and it passes exactly when under each such name there is an address that is not
   empty.
   */
  lemma {:induction false} ClaimsAreNamed(d: Desired, m: Record, w: World, m': Record, w': World, out: Outcome)
    requires ClaimsStage(d, m, w, m', w', out)
    ensures |w.claimLog| <= |w'.claimLog| && forall i :: |w.claimLog| <= i < |w'.claimLog| ==> ClaimOf(d, w'.claimLog[i])
    ensures forall name :: name in w'.claims && name !in w.claims ==> ClaimOf(d, name)
    ensures out == Continue ==> forall name :: ClaimOf(d, name) ==> name in w'.claims && name in w.addresses && w.addresses[name].address != ""
    ensures out == Requeue ==> exists name :: ClaimOf(d, name) && name in w'.claims && !(name in w.addresses && w.addresses[name].address != "")
  {
    ClaimedInWords(d, w, w', ClaimedCount(d, m, w, m', w', out));
    if out == Continue {
      ContinuesInWords(d, m, w, m', w');
    } else if out == Requeue {
      WaitsInWords(d, m, w, m', w');
    }
  }

  lemma {:induction false} RefsInWords(d: Desired, k: nat, name: string)
    requires k <= |Ethernets(d)| && name in Refs(d.name, Ethernets(d)[..k])
    ensures ClaimOf(d, name)
  {
    var i :| 0 <= i < k && Ethernets(d)[..k][i].ipamRef.Some? && name == ClaimName(d.name, Ethernets(d)[..k][i]);
    assert d.network.value.ethernets[i] == Ethernets(d)[..k][i];
  }

  ghost function ClaimedCount(d: Desired, m: Record, w: World, m': Record, w': World, out: Outcome): (k: nat)
    requires ClaimsStage(d, m, w, m', w', out)
    ensures k <= |Ethernets(d)| && Claimed(w, w', d.name, Ethernets(d)[..k])
  {
    var es := Ethernets(d);
    assert es[..|es|] == es;
    var k: nat :| k <= |es| && Claimed(w, w', d.name, es[..k]);
    k
  }

  lemma {:induction false} ClaimedInWords(d: Desired, w: World, w': World, k: nat)
    requires k <= |Ethernets(d)| && Claimed(w, w', d.name, Ethernets(d)[..k])
    ensures |w.claimLog| <= |w'.claimLog| && forall i :: |w.claimLog| <= i < |w'.claimLog| ==> ClaimOf(d, w'.claimLog[i])
    ensures forall name :: name in w'.claims && name !in w.claims ==> ClaimOf(d, name)
  {
    var es := Ethernets(d)[..k];
    ClaimsMade(w.claims, d.name, es);
    forall i | |w.claimLog| <= i < |w'.claimLog|
      ensures ClaimOf(d, w'.claimLog[i])
    {
      assert w'.claimLog[i] in NewClaims(w.claims, d.name, es);
      RefsInWords(d, k, w'.claimLog[i]);
    }
    forall name | name in w'.claims && name !in w.claims
      ensures ClaimOf(d, name)
    {
      RefsInWords(d, k, name);
    }
  }

  lemma {:induction false} ContinuesInWords(d: Desired, m: Record, w: World, m': Record, w': World)
    requires ClaimsStage(d, m, w, m', w', Continue)
    ensures forall name :: ClaimOf(d, name) ==> name in w'.claims && name in w.addresses && w.addresses[name].address != ""
  {
    ClaimedUpToFirstUnresolved(d, m, w, m', w', Continue);
    forall name | ClaimOf(d, name)
      ensures name in w'.claims && name in w.addresses && w.addresses[name].address != ""
    {
      var k :| 0 <= k < |d.network.value.ethernets| && d.network.value.ethernets[k].ipamRef.Some?
            && name == d.name + "-" + d.network.value.ethernets[k].name;
      assert Resolved(w.addresses, d.name, Ethernets(d)[k]) && name in Refs(d.name, Ethernets(d));
    }
  }

  lemma {:induction false} WaitsInWords(d: Desired, m: Record, w: World, m': Record, w': World)
    requires ClaimsStage(d, m, w, m', w', Requeue)
    ensures exists name :: ClaimOf(d, name) && name in w'.claims && !(name in w.addresses && w.addresses[name].address != "")
  {
    var es := Ethernets(d);
    var stop := FirstUnresolved(w.addresses, d.name, es);
    ClaimedUpToFirstUnresolved(d, m, w, m', w', Requeue);
    var name := ClaimName(d.name, es[stop]);
    assert es[..stop + 1][stop] == es[stop];
    assert name in Refs(d.name, es[..stop + 1]);
    RefsInWords(d, stop + 1, name);
  }

  /** With a reliable API, the stage dies of a nil API group exactly when it comes to a reference that needs a claim and has no group. */
  lemma {:induction false} ClaimsPanicExactly(d: Desired, m: Record, w: World, m': Record, w': World, out: Outcome)
    requires ClaimsStage(d, m, w, m', w', out) && w.reliable
    ensures out == Panic <==>
      exists k :: 0 <= k < |Ethernets(d)| && k <= FirstUnresolved(w.addresses, d.name, Ethernets(d))
               && Unclaimable(EnsureClaims(w.claims, d.name, Ethernets(d)[..k]), d.name, Ethernets(d)[k])
  {
    var es := Ethernets(d);
    var stop := FirstUnresolved(w.addresses, d.name, es);
    if out != Panic {
      var reached := if out == Continue then es else es[..stop + 1];
      forall k | 0 <= k < |es| && k <= stop
        ensures !Unclaimable(EnsureClaims(w.claims, d.name, es[..k]), d.name, es[k])
      {
        assert reached[..k] == es[..k] && reached[k] == es[k];
      }
    }
  }

  /******* Whole runs *******/

  // Others answer claims; they neither take claims nor addresses back.
  ghost predicate Steady(s: State, s': State) {
    && s'.d == s.d
    && s.w.claims.Keys <= s'.w.claims.Keys
    && (forall e :: Resolved(s.w.addresses, s.d.name, e) ==> Resolved(s'.w.addresses, s.d.name, e))
  }

  ghost predicate SteadyRun(run: seq<State>) {
    forall i :: 0 <= i < |run| - 1 && OthersStep(run[i], run[i + 1]) ==> Steady(run[i], run[i + 1])
  }

  // Reference k of the spec is among those claimed so far: all before it are answered.
  ghost predicate Reached(s: State, name: string) {
    exists k :: 0 <= k < |Ethernets(s.d)| && k <= FirstUnresolved(s.w.addresses, s.d.name, Ethernets(s.d))
             && Ethernets(s.d)[k].ipamRef.Some? && name == ClaimName(s.d.name, Ethernets(s.d)[k])
  }

  ghost predicate Claiming(s: State) {
    && NoDuplicates(s.w.claimLog)
    && (forall i :: 0 <= i < |s.w.claimLog| ==> s.w.claimLog[i] in s.w.claims)
    && (forall i :: 0 <= i < |s.w.claimLog| ==> Reached(s, s.w.claimLog[i]))
  }

  lemma {:induction false} StopGrows(addresses: map<string, IPAddress>, later: map<string, IPAddress>, machine: string, es: seq<EthernetSpec>)
    requires forall e :: Resolved(addresses, machine, e) ==> Resolved(later, machine, e)
    ensures FirstUnresolved(addresses, machine, es) <= FirstUnresolved(later, machine, es)
  {
    if es != [] && Resolved(addresses, machine, es[0]) {
      StopGrows(addresses, later, machine, es[1..]);
    }
  }

  lemma {:induction false} ClaimingByOthers(s: State, s': State)
    requires Claiming(s) && OthersStep(s, s') && Steady(s, s')
    ensures Claiming(s')
  {
    StopGrows(s.w.addresses, s'.w.addresses, s.d.name, Ethernets(s.d));
    forall i | 0 <= i < |s'.w.claimLog|
      ensures Reached(s', s'.w.claimLog[i])
    {
      assert Reached(s, s.w.claimLog[i]);
    }
  }

  lemma {:induction false} ReachedByClaim(s: State, k: nat, name: string)
    requires k <= |Ethernets(s.d)| && k <= FirstUnresolved(s.w.addresses, s.d.name, Ethernets(s.d)) + 1
    requires name in Refs(s.d.name, Ethernets(s.d)[..k])
    ensures Reached(s, name)
  {
    var es := Ethernets(s.d);
    var j :| 0 <= j < k && es[..k][j].ipamRef.Some? && ClaimName(s.d.name, es[..k][j]) == name;
    assert es[..k][j] == es[j];
  }

  lemma {:induction false} ClaimingByStage(s: State, s': State)
    requires Claiming(s) && ClaimedInOrder(s.d, s.w, s'.w) && s'.d == s.d
    ensures Claiming(s')
  {
    var es, name := Ethernets(s.d), s.d.name;
    var k: nat :| k <= |es| && k <= FirstUnresolved(s.w.addresses, name, es) + 1 && Claimed(s.w, s'.w, name, es[..k]);
    ClaimsMade(s.w.claims, name, es[..k]);
    AppendNew(s.w.claimLog, NewClaims(s.w.claims, name, es[..k]));
    forall i | 0 <= i < |s'.w.claimLog|
      ensures s'.w.claimLog[i] in s'.w.claims && Reached(s', s'.w.claimLog[i])
    {
      if i >= |s.w.claimLog| {
        assert s'.w.claimLog[i] in NewClaims(s.w.claims, name, es[..k]);
        ReachedByClaim(s', k, s'.w.claimLog[i]);
      } else {
        ReachedStays(s, s', s.w.claimLog[i]);
      }
    }
  }

  lemma {:induction false} ReachedStays(s: State, s': State, name: string)
    requires Reached(s, name) && s'.d == s.d && s'.w.addresses == s.w.addresses
    ensures Reached(s', name)
  {
  }

  lemma {:induction false} ClaimsUntouched(lib: Lib, s: State, s': State)
    requires Move(lib, s, s') && !OthersStep(s, s') && !(CalmStep(lib, s, s') && ClaimedInOrder(s.d, s.w, s'.w))
    ensures s'.d == s.d && s'.w.claims == s.w.claims && s'.w.claimLog == s.w.claimLog && s'.w.addresses == s.w.addresses
  {
    if DeleteStep(s, s') {
      DeletionFrame(s, s');
    } else if PowerStep(s, s') {
      PowerFrame(s, s');
    } else if CalmStep(lib, s, s') {
      assert ClaimsKept(s, s');
    }
  }

  lemma {:induction false} ClaimingNext(lib: Lib, s: State, s': State)
    requires Claiming(s) && Move(lib, s, s') && (OthersStep(s, s') ==> Steady(s, s'))
    ensures Claiming(s')
  {
    if OthersStep(s, s') {
      ClaimingByOthers(s, s');
    } else if CalmStep(lib, s, s') && ClaimedInOrder(s.d, s.w, s'.w) {
      ClaimingByStage(s, s');
    } else {
      ClaimsUntouched(lib, s, s');
      ClaimingSame(s, s');
    }
  }

  lemma {:induction false} ClaimingSame(s: State, s': State)
    requires Claiming(s) && s'.d == s.d
    requires s'.w.claims == s.w.claims && s'.w.claimLog == s.w.claimLog && s'.w.addresses == s.w.addresses
    ensures Claiming(s')
  {
  }

  lemma {:induction false} ClaimingAt(lib: Lib, run: seq<State>, i: nat)
    requires Moving(lib, run) && SteadyRun(run) && 0 < i < |run| && Claiming(run[i - 1])
    ensures Claiming(run[i])
  {
    var s, s' := run[i - 1], run[i];
    MoveOf(lib, run, i);
    ClaimingNext(lib, s, s');
  }

  lemma {:induction false} ClaimingHolds(lib: Lib, run: seq<State>, i: nat)
    requires Moving(lib, run) && SteadyRun(run) && i < |run|
    ensures Claiming(run[i])
  {
    if i == 0 {
      assert run[0].w.claimLog == [];
    } else {
      ClaimingHolds(lib, run, i - 1);
      ClaimingAt(lib, run, i);
    }
  }

  /**
   With a fixed spec and nobody taking claims or addresses back, over any run no name is claimed
   twice, and whatever was claimed is a reference of the spec before which nothing is unanswered.
   */
  lemma {:induction false} ClaimedOnceInOrder(lib: Lib, run: seq<State>, i: nat)
    requires Run(lib, run) && SteadyRun(run) && i < |run|
    ensures NoDuplicates(run[i].w.claimLog)
    ensures forall j :: 0 <= j < |run[i].w.claimLog| ==> Reached(run[i], run[i].w.claimLog[j])
  {
    RunMoves(lib, run);
    ClaimingHolds(lib, run, i);
  }

  /******* Exactly which claims exist *******/

  // The references a pass of the stage comes to: up to and including the first unanswered one.
  function ReachedRefs(d: Desired, w: World): set<string> {
    var es := Ethernets(d);
    var stop := FirstUnresolved(w.addresses, d.name, es);
    Refs(d.name, if stop < |es| then es[..stop + 1] else es)
  }

  // There were no claims, and only this machine's controller makes any.
  ghost predicate SoleClaimant(run: seq<State>) {
    && |run| > 0 && run[0].w.claims == map[]
    && forall i :: 0 <= i < |run| - 1 && OthersStep(run[i], run[i + 1]) ==> run[i + 1].w.claims == run[i].w.claims
  }

  ghost predicate OwnClaimsOnly(w: World) {
    forall name :: name in w.claims ==> name in w.claimLog
  }

  lemma {:induction false} ClaimedAreLogged(w: World, w': World, machine: string, es: seq<EthernetSpec>, claim: string)
    requires OwnClaimsOnly(w) && Claimed(w, w', machine, es) && claim in w'.claims
    ensures claim in w'.claimLog
  {
    ClaimsMade(w.claims, machine, es);
    if claim !in w.claims {
      assert claim in w'.claims.Keys;
      assert claim in Refs(machine, es) - w.claims.Keys;
      assert claim in NewClaims(w.claims, machine, es);
    }
  }

  lemma {:induction false} OwnClaimsByStage(s: State, s': State)
    requires OwnClaimsOnly(s.w) && ClaimedInOrder(s.d, s.w, s'.w)
    ensures OwnClaimsOnly(s'.w)
  {
    var es, name := Ethernets(s.d), s.d.name;
    var k: nat :| k <= |es| && Claimed(s.w, s'.w, name, es[..k]);
    forall claim | claim in s'.w.claims
      ensures claim in s'.w.claimLog
    {
      ClaimedAreLogged(s.w, s'.w, name, es[..k], claim);
    }
  }

  lemma {:induction false} OwnClaimsAt(lib: Lib, run: seq<State>, i: nat)
    requires Moving(lib, run) && SoleClaimant(run) && 0 < i < |run| && OwnClaimsOnly(run[i - 1].w)
    ensures OwnClaimsOnly(run[i].w)
  {
    var s, s' := run[i - 1], run[i];
    MoveOf(lib, run, i);
    if CalmStep(lib, s, s') && ClaimedInOrder(s.d, s.w, s'.w) {
      OwnClaimsByStage(s, s');
    } else if !OthersStep(s, s') {
      ClaimsUntouched(lib, s, s');
    }
  }

  lemma {:induction false} OwnClaimsHold(lib: Lib, run: seq<State>, i: nat)
    requires Moving(lib, run) && SoleClaimant(run) && i < |run|
    ensures OwnClaimsOnly(run[i].w)
  {
    if i > 0 {
      OwnClaimsHold(lib, run, i - 1);
      OwnClaimsAt(lib, run, i);
    }
  }

  lemma {:induction false} ReachedIsRef(s: State, name: string)
    requires Reached(s, name)
    ensures name in ReachedRefs(s.d, s.w)
  {
    var es := Ethernets(s.d);
    var stop := FirstUnresolved(s.w.addresses, s.d.name, es);
    var reached := if stop < |es| then es[..stop + 1] else es;
    var k :| 0 <= k < |es| && k <= stop && es[k].ipamRef.Some? && name == ClaimName(s.d.name, es[k]);
    assert reached[k] == es[k];
  }

  lemma {:induction false} OwnClaimsReached(s: State)
    requires Claiming(s) && OwnClaimsOnly(s.w)
    ensures s.w.claims.Keys <= ReachedRefs(s.d, s.w)
  {
    forall name | name in s.w.claims
      ensures name in ReachedRefs(s.d, s.w)
    {
      assert name in s.w.claimLog;
      ReachedIsRef(s, name);
    }
  }

  // From the end of the stage until it comes again nothing is claimed.
  lemma {:induction false} ClaimsStay(lib: Lib, run: seq<State>, i: nat, j: nat)
    requires Moving(lib, run) && SoleClaimant(run) && i <= j < |run| && forall k :: i <= k < j ==> run[k].pc != AtClaims
    ensures run[j].w.claims == run[i].w.claims
  {
    if i < j {
      ClaimsStay(lib, run, i, j - 1);
      ClaimsStayAt(lib, run, j);
    }
  }

  lemma {:induction false} ClaimsStayAt(lib: Lib, run: seq<State>, j: nat)
    requires Moving(lib, run) && SoleClaimant(run) && 0 < j < |run| && run[j - 1].pc != AtClaims
    ensures run[j].w.claims == run[j - 1].w.claims
  {
    var s, s' := run[j - 1], run[j];
    MoveOf(lib, run, j);
    if !OthersStep(s, s') {
      SameClaims(lib, s, s');
    }
  }

  lemma {:induction false} SameClaims(lib: Lib, s: State, s': State)
    requires Move(lib, s, s') && !OthersStep(s, s') && s.pc != AtClaims
    ensures s'.w.claims == s.w.claims
  {
    if !(CalmStep(lib, s, s') && ClaimedInOrder(s.d, s.w, s'.w)) {
      ClaimsUntouched(lib, s, s');
    }
  }

  /**
   Over every run that starts without claims, with a fixed spec and nobody else claiming or taking
   back: after a pass of the stage without error, and until the next one, the claims that exist are
   exactly the references up to and including the first that was unanswered.
   */
  lemma {:induction false} ClaimsExactly(lib: Lib, run: seq<State>, i: nat, j: nat)
    requires Run(lib, run) && SteadyRun(run) && SoleClaimant(run) && i < j < |run|
    requires run[i].pc == AtClaims && StageStep(lib, run[i], run[i + 1]) && (run[i + 1].out == Continue || run[i + 1].out == Requeue)
    requires forall k :: i < k < j ==> run[k].pc != AtClaims
    ensures run[j].w.claims.Keys == ReachedRefs(run[i].d, run[i].w)
  {
    RunMoves(lib, run);
    ClaimingHolds(lib, run, i);
    OwnClaimsHold(lib, run, i);
    OwnClaimsReached(run[i]);
    StageClaimsReached(lib, run[i], run[i + 1]);
    ClaimsStay(lib, run, i + 1, j);
  }

  lemma {:induction false} StageClaimsReached(lib: Lib, s: State, s': State)
    requires StageStep(lib, s, s') && (s'.out == Continue || s'.out == Requeue)
    ensures s.pc == AtClaims ==> s'.w.claims.Keys == s.w.claims.Keys + ReachedRefs(s.d, s.w)
  {
    match s.pc
    case AtClaims => ClaimedUpToFirstUnresolved(s.d, s.mem, s.w, s'.mem, s'.w, s'.out);
    case _ =>
  }
}
