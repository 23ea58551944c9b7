/** VNC: read the settings back, compare with the spec, generate what is asked for, write, read again. */
module VncSettings {
  import opened Options
  import opened Api
  import opened Cloud

  const FIRST_PORT := 5900
  const PORTS := 100
  const LETTERS := 26
  const DIGITS := 10
  const PASSWORD_LENGTH := 8

  function Decimal(n: nat): string {
    if n < 10 then ['0' + n as char] else Decimal(n / 10) + ['0' + (n % 10) as char]
  }

  predicate PortInRange(port: string) {
    exists n: nat :: FIRST_PORT <= n < FIRST_PORT + PORTS && port == Decimal(n)
  }

  predicate LetterOrDigit(c: char) {
    'a' <= c <= 'z' || 'A' <= c <= 'Z' || '0' <= c <= '9'
  }

  predicate VncPassword(password: string) {
    |password| == PASSWORD_LENGTH && forall i :: 0 <= i < |password| ==> LetterOrDigit(password[i])
  }

  // The n-th character of the alphabet passwords are drawn from.
  function Charset(n: nat): (c: char)
    requires n < 2 * LETTERS + DIGITS
    ensures LetterOrDigit(c)
  {
    if n < LETTERS then 'a' + n as char
    else if n < 2 * LETTERS then 'A' + (n - LETTERS) as char
    else '0' + (n - 2 * LETTERS) as char
  }

  function FormatBool(b: bool): string {
    if b then "TRUE" else "FALSE"
  }

  predicate SaysTrue(s: string) {
    s == "1" || s == "t" || s == "T" || s == "TRUE" || s == "true" || s == "True"
  }

  predicate SaysFalse(s: string) {
    s == "0" || s == "f" || s == "F" || s == "FALSE" || s == "false" || s == "False"
  }

  function ParseBool(s: string): Option<bool> {
    if SaysTrue(s) then Some(true) else if SaysFalse(s) then Some(false) else None
  }

  // A setting is read under the mixed-case prefix, and under the lower-case one if that gives nothing.
  function Setting(config: map<Key, string>, setting: VncField): string {
    var first := Lookup(config, RemoteDisplay(false, setting));
    if first != "" then first else Lookup(config, RemoteDisplay(true, setting))
  }

  function Pointer(s: string): Option<string> {
    if s == "" then None else Some(s)
  }

  function ReadVnc(config: map<Key, string>): Vnc {
    var enabled := Setting(config, Enabled);
    Vnc(if enabled == "" then None else ParseBool(enabled),
        Pointer(Setting(config, Port)), Pointer(Setting(config, Password)), None, None)
  }

  predicate WantsPort(spec: Vnc) {
    spec.port.None? && spec.generatePort == Some(true)
  }

  predicate WantsPassword(spec: Vnc) {
    spec.password.None? && spec.generatePassword == Some(true)
  }

  // Comparing reads no nil status field.
  predicate Comparable(spec: Vnc, status: Vnc) {
    && (spec.enabled.Some? ==> status.enabled.Some?)
    && (spec.port.Some? ==> status.port.Some?)
    && (spec.password.Some? ==> status.password.Some?)
  }

  predicate Agrees(spec: Vnc, status: Vnc) {
    && (spec.enabled.Some? ==> status.enabled == spec.enabled)
    && (spec.port.Some? ==> status.port == spec.port)
    && (spec.password.Some? ==> status.password == spec.password)
    && !WantsPort(spec) && !WantsPassword(spec)
  }

  // `filled` is `spec` with what it asks to generate.
  ghost predicate Filled(spec: Vnc, filled: Vnc) {
    && filled == spec.(port := filled.port, password := filled.password)
    && (if WantsPort(spec) then filled.port.Some? && PortInRange(filled.port.value) else filled.port == spec.port)
    && (if WantsPassword(spec) then filled.password.Some? && VncPassword(filled.password.value)
        else filled.password == spec.password)
  }

  function VncParams(spec: Vnc): map<Key, string> {
    (if spec.enabled.Some? then map[RemoteDisplay(false, Enabled) := FormatBool(spec.enabled.value)] else map[])
    + (if spec.port.Some? then map[RemoteDisplay(false, Port) := spec.port.value] else map[])
    + (if spec.password.Some? then map[RemoteDisplay(false, Password) := spec.password.value] else map[])
  }

  ghost predicate VncStage(d: Desired, id: string, m: Record, w: World, m': Record, w': World, out: Outcome) {
    if m.vncStatus.None? then
      && w' == w
      && match out
         case Requeue => id in w.vms && m' == m.(vncStatus := Some(ReadVnc(w.vms[id].config)))
         case Error => m' == m && !(w.reliable && id in w.vms)
         case _ => false
    else if m.vnc.None? then
      out == Continue && m' == m && w' == w
    else if !Comparable(m.vnc.value, m.vncStatus.value) then
      out == Panic && m' == m && w' == w
    else if Agrees(m.vnc.value, m.vncStatus.value) then
      out == Continue && m' == m && w' == w
    else
      VncWritten(id, m, w, m', w', out)
  }

  ghost predicate VncWritten(id: string, m: Record, w: World, m': Record, w': World, out: Outcome)
    requires m.vnc.Some?
  {
    && m'.vnc.Some? && Filled(m.vnc.value, m'.vnc.value)
    && match out
       case Continue =>
         && id in w'.vms && WroteAll(w, w', id, VncParams(m'.vnc.value))
         && m' == m.(vnc := m'.vnc, vncStatus := Some(ReadVnc(w'.vms[id].config)))
       case Error =>
         && WroteSome(w, w', id, VncParams(m'.vnc.value)) && m' == m.(vnc := m'.vnc)
         && !(w.reliable && id in w.vms)
       case _ => false
  }

  /** The settings as the first non-empty value under the two prefixes. */
  method ReadSetting(hv: Hypervisor, id: string, setting: VncField) returns (r: Reply<string>)
    ensures r.Ok? ==> id in hv.vms && r.value == Setting(hv.vms[id].config, setting)
    ensures hv.reliable && id in hv.vms ==> r.Ok?
  {
    var prefixes := [false, true];
    r := Ok("");
    for i := 0 to |prefixes|
      invariant r.Ok? && (i > 0 ==> id in hv.vms)
      invariant i == 1 ==> Lookup(hv.vms[id].config, RemoteDisplay(false, setting)) == ""
      invariant i == 2 ==> r.value == Setting(hv.vms[id].config, setting)
    {
      r := hv.GetVMParams(id, RemoteDisplay(prefixes[i], setting));
      if !r.Ok? || r.value != "" {
        return;
      }
    }
  }

  // What a text says under each setting, in the words of Go's `strconv.ParseBool` for the flag.
  predicate SettingsSay(enabled: string, port: string, password: string, status: Vnc) {
    && (status.enabled == Some(true) <==> enabled in {"1", "t", "T", "TRUE", "true", "True"})
    && (status.enabled == Some(false) <==> enabled in {"0", "f", "F", "FALSE", "false", "False"})
    && status.port == (if port == "" then None else Some(port))
    && status.password == (if password == "" then None else Some(password))
    && status.generatePort == None && status.generatePassword == None
  }

  lemma {:induction false} ReadSays(config: map<Key, string>)
    ensures SettingsSay(Setting(config, Enabled), Setting(config, Port), Setting(config, Password), ReadVnc(config))
  {
  }

  /** The text of a setting is that under its mixed-case key; if there is none or it is empty, that under the lower-case one; or empty. */
  lemma {:induction false} SettingMeans(config: map<Key, string>, setting: VncField)
    ensures var mixed, lower := RemoteDisplay(false, setting), RemoteDisplay(true, setting);
            if mixed in config && config[mixed] != "" then Setting(config, setting) == config[mixed]
            else if lower in config then Setting(config, setting) == config[lower]
            else Setting(config, setting) == ""
  {
  }

  method UpdateVncStatus(hv: Hypervisor, id: string, m: VDMachine) returns (ok: bool)
    modifies m`vncStatus
    ensures ok ==> id in hv.vms && m.vncStatus == Some(ReadVnc(hv.vms[id].config))
    ensures ok ==>
      var config := hv.vms[id].config;
      SettingsSay(Setting(config, Enabled), Setting(config, Port), Setting(config, Password), m.vncStatus.value)
    ensures !ok ==> m.vncStatus == old(m.vncStatus)
    ensures hv.reliable && id in hv.vms ==> ok
  {
    var settings := [Enabled, Port, Password];
    var params: map<VncField, string> := map[];
    for i := 0 to |settings|
      invariant m.vncStatus == old(m.vncStatus)
      invariant params.Keys == set j | 0 <= j < i :: settings[j]
      invariant i > 0 ==> id in hv.vms
      invariant forall j :: 0 <= j < i ==> settings[j] in params && params[settings[j]] == Setting(hv.vms[id].config, settings[j])
    {
      var value := ReadSetting(hv, id, settings[i]);
      if !value.Ok? {
        return false;
      }
      params := params[settings[i] := value.value];
    }
    assert settings[0] == Enabled && settings[1] == Port && settings[2] == Password;
    var enabled: Option<bool> := None;
    if params[Enabled] != "" {
      enabled := ParseBool(params[Enabled]);
    }
    m.vncStatus := Some(Vnc(enabled, Pointer(params[Port]), Pointer(params[Password]), None, None));
    ReadSays(hv.vms[id].config);
    return true;
  }

  /** A password is eight ASCII letters and digits. */
  lemma {:induction false} PasswordMeans(password: string)
    ensures VncPassword(password) <==>
      |password| == 8 && forall i :: 0 <= i < 8 ==> 'a' <= password[i] <= 'z' || 'A' <= password[i] <= 'Z' || '0' <= password[i] <= '9'
  {
  }

  method GeneratePassword() returns (password: string)
    ensures VncPassword(password) && |password| == 8
  {
    password := "";
    for i := 0 to PASSWORD_LENGTH
      invariant |password| == i && forall j :: 0 <= j < i ==> LetterOrDigit(password[j])
    {
      var n: nat :| n < 2 * LETTERS + DIGITS;
      password := password + [Charset(n)];
    }
  }

  method Fill(spec: Vnc) returns (filled: Vnc)
    ensures Filled(spec, filled)
  {
    filled := spec;
    if WantsPort(spec) {
      var n: nat :| n < PORTS;
      filled := filled.(port := Some(Decimal(FIRST_PORT + n)));
    }
    if WantsPassword(spec) {
      var password := GeneratePassword();
      filled := filled.(password := Some(password));
    }
  }

  // The settings were filled in and, if `ok`, all of them written.
  ghost predicate VncSent(id: string, m: Record, w: World, m': Record, w': World, ok: bool) {
    && m.vnc.Some? && m'.vnc.Some? && Filled(m.vnc.value, m'.vnc.value) && m' == m.(vnc := m'.vnc)
    && (w.reliable && id in w.vms ==> ok)
    && if ok then WroteAll(w, w', id, VncParams(m'.vnc.value)) else WroteSome(w, w', id, VncParams(m'.vnc.value))
  }

  /** Generates what is asked for and writes every setting. */
  method GenerateAndWrite(hv: Hypervisor, ghost kube: Cluster, id: string, m: VDMachine) returns (ok: bool)
    requires m.vnc.Some?
    modifies hv`vms, hv`log, m`vnc
    ensures VncSent(id, old(m.Rec()), old(Seen(hv, kube)), m.Rec(), Seen(hv, kube), ok)
  {
    var filled := Fill(m.vnc.value);
    m.vnc := Some(filled);
    ok := hv.WriteParams(id, VncParams(filled), kube);
  }

  /** Reads the settings just written back into the status. */
  method ReadBack(hv: Hypervisor, ghost kube: Cluster, id: string, m: VDMachine, ghost r: Record, ghost w: World)
    returns (out: Outcome)
    requires VncSent(id, r, w, m.Rec(), Seen(hv, kube), true)
    modifies m`vncStatus
    ensures VncWritten(id, r, w, m.Rec(), Seen(hv, kube), out)
  {
    var ok := UpdateVncStatus(hv, id, m);
    out := if ok then Continue else Error;
  }

  method WriteVnc(hv: Hypervisor, ghost kube: Cluster, id: string, m: VDMachine) returns (out: Outcome)
    requires m.vnc.Some?
    modifies hv`vms, hv`log, m`vnc, m`vncStatus
    ensures VncWritten(id, old(m.Rec()), old(Seen(hv, kube)), m.Rec(), Seen(hv, kube), out)
  {
    ghost var r, w := m.Rec(), Seen(hv, kube);
    var ok := GenerateAndWrite(hv, kube, id, m);
    out := Error;
    if ok {
      out := ReadBack(hv, kube, id, m, r, w);
    }
  }

  method ReconcileVnc(hv: Hypervisor, ghost kube: Cluster, id: string, m: VDMachine) returns (out: Outcome)
    modifies hv`vms, hv`log, m`vnc, m`vncStatus
    ensures VncStage(m.desired, id, old(m.Rec()), old(Seen(hv, kube)), m.Rec(), Seen(hv, kube), out)
  {
    if m.vncStatus.None? {
      var read := UpdateVncStatus(hv, id, m);
      return if read then Requeue else Error;
    }
    if m.vnc.None? {
      return Continue;
    }
    if !Comparable(m.vnc.value, m.vncStatus.value) {
      return Panic;
    }
    if Agrees(m.vnc.value, m.vncStatus.value) {
      return Continue;
    }
    out := WriteVnc(hv, kube, id, m);
  }
}
