/** A machine at rest stays at rest: passes over it change nothing, however many there are. */
module Quiescence {
  import opened Options
  import opened Api
  import opened Cloud
  import opened Lifecycle
  import opened Folders
  import opened Adapters
  import opened Claims
  import opened VncSettings
  import opened Bootstrap
  import opened System
  import opened Frames

  // The adapters are those wanted; or none are, and the VM has none to read.
  ghost predicate AdaptersAtRest(d: Desired, m: Record, w: World) {
    || AdaptersSettled(d, m)
    || (WantedAdapters(d).None? && m.vmID.Some? && m.vmID.value in w.vms && Occupied(w.vms[m.vmID.value].config) == {})
  }

  predicate VncAtRest(m: Record) {
    m.vncStatus.Some? && (m.vnc.Some? ==> Comparable(m.vnc.value, m.vncStatus.value) && Agrees(m.vnc.value, m.vncStatus.value))
  }

  // Every pool reference has its claim and its address.
  predicate ClaimsAtRest(d: Desired, w: World) {
    forall k :: 0 <= k < |Ethernets(d)| && Ethernets(d)[k].ipamRef.Some? ==>
      ClaimName(d.name, Ethernets(d)[k]) in w.claims && Resolved(w.addresses, d.name, Ethernets(d)[k])
  }

  // The record agrees with the spec, the VM is running and was set up.
  ghost predicate AtRest(d: Desired, m: Record, w: World) {
    && m.finalizer && !m.deleting
    && m.vmID.Some? && m.vmID.value in w.vms
    && m.state == Some(w.vms[m.vmID.value].power) && m.state != Some(PoweredOff)
    && Sized(d, m) && AdaptersAtRest(d, m, w) && ClaimsAtRest(d, w)
    && SameFolders(d.folders, m.sharedFolders) && VncAtRest(m) && m.bootstrapped
  }

  ghost predicate Converged(s: State) {
    s.pc == Idle && s.alive && AtRest(s.d, s.stored, s.w) && s.stored.addresses != [] && Persist(s.stored) == s.stored
  }

  // Where a pass that started from the converged state `s0` can be: nothing has changed but its
  // place, and perhaps an empty list of adapters that is not stored.
  ghost predicate Still(s0: State, s: State) {
    && s.pc != Idle && s.pc != Creating && s.pc != Deleting
    && s.alive && s.d == s0.d && s.w == s0.w && s.stored == s0.stored
    && Persist(s.mem) == s0.stored
  }

  lemma {:induction false} NothingToClaim(claims: map<string, PoolRef>, machine: string, es: seq<EthernetSpec>)
    requires forall k :: 0 <= k < |es| && es[k].ipamRef.Some? ==> ClaimName(machine, es[k]) in claims
    ensures EnsureClaims(claims, machine, es) == claims && NewClaims(claims, machine, es) == []
  {
    if es != [] {
      var before := es[..|es| - 1];
      assert forall k :: 0 <= k < |before| ==> before[k] == es[k];
      NothingToClaim(claims, machine, before);
    }
  }

  lemma {:induction false} StillAtClaims(d: Desired, m: Record, w: World, m': Record, w': World, out: Outcome)
    requires ClaimsAtRest(d, w) && ClaimsStage(d, m, w, m', w', out)
    ensures m' == m && w' == w
  {
    ClaimsFrame(d, m, w, m', w', out);
    var es := Ethernets(d);
    var k: nat :| k <= |es| && Claimed(w, w', d.name, es[..k]);
    StillClaimed(w, w', d.name, es, k);
  }

  lemma {:induction false} StillClaimed(w: World, w': World, machine: string, es: seq<EthernetSpec>, k: nat)
    requires forall j :: 0 <= j < |es| && es[j].ipamRef.Some? ==> ClaimName(machine, es[j]) in w.claims
    requires k <= |es| && Claimed(w, w', machine, es[..k])
    ensures w' == w
  {
    assert forall j :: 0 <= j < k ==> es[..k][j] == es[j];
    NothingToClaim(w.claims, machine, es[..k]);
    assert w.claimLog + [] == w.claimLog;
  }

  lemma {:induction false} StillAtAdapters(d: Desired, m: Record, w: World, m': Record, w': World, out: Outcome)
    requires m.vmID.Some? && AdaptersAtRest(d, m, w) && AdaptersStage(d, m.vmID.value, m, w, m', w', out)
    ensures w' == w && Persist(m') == Persist(m)
  {
    if !AdaptersSettled(d, m) && m' != m {
      assert m'.adapters.value == [];
    }
  }

  lemma {:induction false} MemAtRest(s0: State, s: State)
    requires Converged(s0) && Still(s0, s)
    ensures AtRest(s.d, s.mem, s.w) && s.mem.addresses != [] && s.mem.vmID.Some?
  {
  }

  // A stage leaves the world alone and the record as good as it was.
  lemma {:induction false} StageIsStill(lib: Lib, pc: Pc, d: Desired, m: Record, w: World, m': Record, w': World, out: Outcome)
    requires AtRest(d, m, w) && m.addresses != [] && pc != Creating && pc != Deleting
    requires StageDone(lib, pc, d, m, w, m', w', out)
    ensures w' == w && Persist(m') == Persist(m)
  {
    match pc
    case AtAdapters => StillAtAdapters(d, m, w, m', w', out);
    case AtClaims => StillAtClaims(d, m, w, m', w', out);
    case _ =>
  }

  lemma {:induction false} StillByProbe(s0: State, s: State, s': State)
    requires Converged(s0) && Still(s0, s) && ProbeStep(s, s') && s.mem == s0.stored
    ensures Still(s0, s')
  {
  }

  lemma {:induction false} StillByRoute(s0: State, s: State, s': State)
    requires Converged(s0) && Still(s0, s) && RouteStep(s, s')
    ensures Still(s0, s')
  {
    assert s.mem.(finalizer := true) == s.mem;
  }

  lemma {:induction false} StillByStage(lib: Lib, s0: State, s: State, s': State)
    requires Converged(s0) && Still(s0, s) && StageStep(lib, s, s')
    ensures Still(s0, s')
  {
    MemAtRest(s0, s);
    StageIsStill(lib, s.pc, s.d, s.mem, s.w, s'.mem, s'.w, s'.out);
  }

  lemma {:induction false} StillAlong(lib: Lib, path: seq<State>, i: nat)
    requires Pass(lib, path) && Converged(path[0]) && 0 < i < |path| - 1
    ensures Still(path[0], path[i]) && (path[i].pc == Probing ==> path[i].mem == path[0].stored)
  {
    var s, s' := path[i - 1], path[i];
    PassStepOf(lib, path, i);
    if i == 1 {
      assert BeginStep(s, s');
    } else {
      StillAlong(lib, path, i - 1);
      if StageStep(lib, s, s') {
        StillByStage(lib, path[0], s, s');
      } else if ProbeStep(s, s') {
        StillByProbe(path[0], s, s');
      } else {
        StillByRoute(path[0], s, s');
      }
    }
  }

  /**
   An undisturbed pass over a converged machine changes nothing: no write to the hypervisor, no
   claim, the same record; so the machine is converged after it.  Calls may fail.
   */
  lemma {:induction false} PassOverConverged(lib: Lib, path: seq<State>)
    requires Pass(lib, path) && Converged(path[0])
    ensures var end := path[|path| - 1];
            end.stored == path[0].stored && end.w == path[0].w && end.alive && end.d == path[0].d && Converged(end)
    ensures forall i :: 0 <= i < |path| ==> path[i].w == path[0].w && path[i].stored == path[0].stored
  {
    var n := |path|;
    PassEndsAt(lib, path);
    forall i | 0 < i < n - 1
      ensures Still(path[0], path[i])
    {
      StillAlong(lib, path, i);
    }
  }

  // Passes one after the other, each starting where the last ended.
  ghost predicate Chained(lib: Lib, passes: seq<seq<State>>) {
    && (forall i :: 0 <= i < |passes| ==> Pass(lib, passes[i]))
    && forall i :: 0 <= i < |passes| - 1 ==> passes[i + 1][0] == passes[i][|passes[i]| - 1]
  }

  /** The same for any number of passes. */
  lemma {:induction false} ConvergedForGood(lib: Lib, passes: seq<seq<State>>, i: nat)
    requires Chained(lib, passes) && i < |passes| && Converged(passes[0][0])
    ensures var end := passes[i][|passes[i]| - 1];
            Converged(end) && end.stored == passes[0][0].stored && end.w == passes[0][0].w
  {
    if i > 0 {
      ConvergedForGood(lib, passes, i - 1);
    }
    PassOverConverged(lib, passes[i]);
  }
}
