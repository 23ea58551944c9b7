/** The VM itself: clone it, size it, turn it on, turn it off and delete it. */
module Lifecycle {
  import opened Options
  import opened Api
  import opened Cloud

  ghost predicate CreateStage(d: Desired, m: Record, w: World, m': Record, w': World, out: Outcome) {
    match out
    case Error => m' == m && w' == w && !w.reliable
    case Continue =>
      && m'.vmID.Some?
      && var id := m'.vmID.value;
      && id !in w.vms && id !in CreatedIds(w.log)
      && id in w'.vms && w'.vms[id].power == PoweredOff && Contiguous(w'.vms[id].config)
      && w' == w.(vms := w.vms[id := w'.vms[id]], log := w.log + [Created(id, d.name, d.templateID)])
      && m' == m.(vmID := Some(id), providerID := Some(ProviderID(id)),
                  hardware := Hardware(w'.vms[id].cpu, w'.vms[id].memory))
    case _ => false
  }

  method ReconcileCreateVM(hv: Hypervisor, ghost kube: Cluster, m: VDMachine) returns (out: Outcome)
    modifies hv`vms, hv`log, m`vmID, m`providerID, m`hardware
    ensures CreateStage(m.desired, old(m.Rec()), old(Seen(hv, kube)), m.Rec(), Seen(hv, kube), out)
    ensures out == Continue ==> m.vmID.Some? && m.providerID == Some("vmwaredesktop://" + m.vmID.value)
  {
    var vm := hv.CreateVM(m.desired.name, m.desired.templateID);
    if !vm.Ok? {
      return Error;
    }
    m.providerID := Some(ProviderID(vm.value));
    m.vmID := Some(vm.value);
    m.hardware := Hardware(hv.vms[vm.value].cpu, hv.vms[vm.value].memory);
    return Continue;
  }

  // The status shows the processors and memory the spec asks for.
  predicate Sized(d: Desired, m: Record) {
    (d.cpu.None? || d.cpu.value == m.hardware.cpu) && (d.memory.None? || d.memory.value == m.hardware.memory)
  }

  ghost predicate HardwareStage(d: Desired, id: string, m: Record, w: World, m': Record, w': World, out: Outcome) {
    if Sized(d, m) then
      out == Continue && m' == m && w' == w
    else
      var cpu, memory := d.cpu.GetOr(m.hardware.cpu), d.memory.GetOr(m.hardware.memory);
      match out
      case Continue =>
        && id in w.vms && m' == m.(hardware := Hardware(cpu, memory))
        && w' == w.(vms := w.vms[id := w.vms[id].(cpu := cpu, memory := memory)], log := w.log + [Resized(id, cpu, memory)])
      case Error => m' == m && w' == w && !(w.reliable && id in w.vms)
      case _ => false
  }

  method Resize(hv: Hypervisor, ghost kube: Cluster, id: string, m: VDMachine) returns (out: Outcome)
    requires !Sized(m.desired, m.Rec())
    modifies hv`vms, hv`log, m`hardware
    ensures HardwareStage(m.desired, id, old(m.Rec()), old(Seen(hv, kube)), m.Rec(), Seen(hv, kube), out)
  {
    var cpu, memory := m.desired.cpu.GetOr(m.hardware.cpu), m.desired.memory.GetOr(m.hardware.memory);
    var ok := hv.UpdateVM(id, cpu, memory);
    if !ok {
      return Error;
    }
    m.hardware := Hardware(hv.vms[id].cpu, hv.vms[id].memory);
    return Continue;
  }

  method ReconcileHardware(hv: Hypervisor, ghost kube: Cluster, id: string, m: VDMachine) returns (out: Outcome)
    modifies hv`vms, hv`log, m`hardware
    ensures HardwareStage(m.desired, id, old(m.Rec()), old(Seen(hv, kube)), m.Rec(), Seen(hv, kube), out)
  {
    if Sized(m.desired, m.Rec()) {
      return Continue;
    }
    out := Resize(hv, kube, id, m);
  }

  /** When the stage is content the status shows what the spec asks for, and a value the spec leaves open has not changed; what was written the VM has. */
  lemma {:induction false} SizedAsAsked(d: Desired, id: string, m: Record, w: World, m': Record, w': World)
    requires HardwareStage(d, id, m, w, m', w', Continue)
    ensures m'.hardware.cpu == (if d.cpu.Some? then d.cpu.value else m.hardware.cpu)
    ensures m'.hardware.memory == (if d.memory.Some? then d.memory.value else m.hardware.memory)
    ensures w' != w ==> id in w'.vms && w'.vms[id].cpu == m'.hardware.cpu && w'.vms[id].memory == m'.hardware.memory
    ensures w' != w ==> m'.hardware != m.hardware
  {
  }

  function SetPower(w: World, id: string, power: Power): World
    requires id in w.vms
  {
    w.(vms := w.vms[id := w.vms[id].(power := power)],
       log := w.log + [if power == PoweredOn then TurnedOn(id) else TurnedOff(id)])
  }

  // A VM found missing here costs the record its provider id, but not its VM id.
  ghost predicate PowerStage(id: string, m: Record, w: World, m': Record, w': World, out: Outcome) {
    if m.state.None? then out == Panic && m' == m && w' == w
    else if m.state != Some(PoweredOff) then out == Continue && m' == m && w' == w
    else
      match out
      case Continue =>
        if id in w.vms then m' == m.(state := Some(PoweredOn)) && w' == SetPower(w, id, PoweredOn)
        else m' == m.(providerID := None) && w' == w
      case Error => m' == m && w' == w && !w.reliable
      case _ => false
  }

  method ReconcilePowerState(hv: Hypervisor, ghost kube: Cluster, id: string, m: VDMachine) returns (out: Outcome)
    modifies hv`vms, hv`log, m`state, m`providerID
    ensures PowerStage(id, old(m.Rec()), old(Seen(hv, kube)), m.Rec(), Seen(hv, kube), out)
  {
    if m.state.None? {
      return Panic;
    }
    if m.state.value != PoweredOff {
      return Continue;
    }
    var power := hv.ChangePowerState(id, true);
    match power
    case Ok(p) => m.state := Some(p); out := Continue;
    case NotFound => m.providerID := None; out := Continue;
    case Failed(_) => out := Error;
  }

  ghost predicate DeleteStage(m: Record, w: World, m': Record, w': World, out: Outcome) {
    if m.vmID.None? then
      out == Continue && m' == m.(finalizer := false) && w' == w
    else if m.state.None? then
      out == Panic && m' == m && w' == w
    else if m.state != Some(PoweredOff) then
      TurnOffStage(m.vmID.value, m, w, m', w', out)
    else
      var id := m.vmID.value;
      match out
      case Continue =>
        && id in w.vms && m' == m.(finalizer := false)
        && w' == w.(vms := w.vms - {id}, log := w.log + [Deleted(id)])
      case Error => m' == m && w' == w && !(w.reliable && id in w.vms)
      case _ => false
  }

  ghost predicate TurnOffStage(id: string, m: Record, w: World, m': Record, w': World, out: Outcome) {
    match out
    case Continue =>
      id in w.vms && m' == m.(state := Some(PoweredOff)) && w' == SetPower(w, id, PoweredOff)
    case Error =>
      if id in w.vms then m' == m && !w.reliable && (w' == w || w' == SetPower(w, id, PoweredOff))
      else w' == w && (m' == m.(finalizer := false) || (m' == m && !w.reliable))
    case _ => false
  }

  method TurnOff(hv: Hypervisor, ghost kube: Cluster, id: string, m: VDMachine) returns (out: Outcome)
    modifies hv`vms, hv`log, m`state, m`finalizer
    ensures TurnOffStage(id, old(m.Rec()), old(Seen(hv, kube)), m.Rec(), Seen(hv, kube), out)
  {
    var power := hv.ChangePowerState(id, false);
    if !power.Ok? {
      if power.NotFound? {
        m.finalizer := false;
      }
      return Error;
    }
    // Nothing else happens within a stage, so this read cannot find the VM gone.
    power := hv.GetPowerState(id);
    if !power.Ok? {
      return Error;
    }
    m.state := Some(power.value);
    return Continue;
  }

  method ReconcileDelete(hv: Hypervisor, ghost kube: Cluster, m: VDMachine) returns (out: Outcome)
    modifies hv`vms, hv`log, m`state, m`finalizer
    ensures DeleteStage(old(m.Rec()), old(Seen(hv, kube)), m.Rec(), Seen(hv, kube), out)
  {
    if m.vmID.None? {
      m.finalizer := false;
      return Continue;
    }
    if m.state.None? {
      return Panic;
    }
    if m.state.value != PoweredOff {
      out := TurnOff(hv, kube, m.vmID.value, m);
      return;
    }
    var ok := hv.DeleteVM(m.vmID.value);
    if !ok {
      return Error;
    }
    m.finalizer := false;
    return Continue;
  }
}
