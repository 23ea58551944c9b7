/** VNC over several passes: what is generated once, and that the settings written are read back. */
module VncRounds {
  import opened Options
  import opened Api
  import opened Cloud
  import opened VncSettings

  /******* Ports *******/

  lemma {:induction false} FourDigits(n: nat)
    requires 5900 <= n < 6000
    ensures Decimal(n) == ['5', '9', '0' + (n / 10 % 10) as char, '0' + (n % 10) as char]
  {
    assert Decimal(n) == Decimal(n / 10) + ['0' + (n % 10) as char];
    assert Decimal(n / 10) == Decimal(n / 100) + ['0' + (n / 10 % 10) as char] by {
      assert n / 10 / 10 == n / 100;
    }
    assert n / 100 == 59;
    assert Decimal(59) == Decimal(5) + ['9'];
  }

  predicate IsDigit(c: char) {
    '0' <= c <= '9'
  }

  /** The ports that may be generated are exactly the texts "5900" to "5999". */
  lemma {:induction false} PortDigits(port: string)
    ensures PortInRange(port) <==> |port| == 4 && port[0] == '5' && port[1] == '9' && IsDigit(port[2]) && IsDigit(port[3])
  {
    if PortInRange(port) {
      var n: nat :| FIRST_PORT <= n < FIRST_PORT + PORTS && port == Decimal(n);
      FourDigits(n);
    }
    if |port| == 4 && port[0] == '5' && port[1] == '9' && IsDigit(port[2]) && IsDigit(port[3]) {
      PortOf(port, port[2] as int - '0' as int, port[3] as int - '0' as int);
    }
  }

  lemma {:induction false} PortOf(port: string, a: nat, b: nat)
    requires a < 10 && b < 10 && port == ['5', '9', '0' + a as char, '0' + b as char]
    ensures PortInRange(port)
  {
    var n := 5900 + 10 * a + b;
    FourDigits(n);
    assert n / 10 % 10 == a && n % 10 == b;
  }

  /** The alphabet of passwords is exactly the letters and digits, each of its places another one. */
  lemma {:induction false} AlphabetIsWhole(c: char)
    ensures (exists n :: 0 <= n < 62 && Charset(n) == c) <==> 'a' <= c <= 'z' || 'A' <= c <= 'Z' || '0' <= c <= '9'
    ensures forall n, k :: 0 <= n < k < 62 ==> Charset(n) != Charset(k)
  {
    if 'a' <= c <= 'z' {
      assert Charset(c as int - 'a' as int) == c;
    } else if 'A' <= c <= 'Z' {
      assert Charset(26 + c as int - 'A' as int) == c;
    } else if '0' <= c <= '9' {
      assert Charset(52 + c as int - '0' as int) == c;
    }
  }

  /******* Printing and reading a flag *******/

  /** The upper-case print of a flag is among the words its reader knows. */
  lemma {:induction false} FlagRoundTrip(b: bool)
    ensures ParseBool(FormatBool(b)) == Some(b) && FormatBool(b) != ""
  {
  }

  /******* Written settings are read back *******/

  // No empty text is asked for: an empty setting reads as an absent one.
  predicate NoEmptyText(spec: Vnc) {
    spec.port != Some("") && spec.password != Some("")
  }

  lemma {:induction false} FilledIsFull(spec: Vnc, filled: Vnc)
    requires Filled(spec, filled) && NoEmptyText(spec)
    ensures NoEmptyText(filled) && !WantsPort(filled) && !WantsPassword(filled)
  {
    if WantsPort(spec) {
      PortDigits(filled.port.value);
    }
  }

  predicate Asks(spec: Vnc, setting: VncField, text: string) {
    RemoteDisplay(false, setting) in VncParams(spec) && VncParams(spec)[RemoteDisplay(false, setting)] == text
  }

  lemma {:induction false} ParamsOfVnc(spec: Vnc)
    ensures spec.enabled.Some? ==> Asks(spec, Enabled, FormatBool(spec.enabled.value))
    ensures spec.port.Some? ==> Asks(spec, Port, spec.port.value)
    ensures spec.password.Some? ==> Asks(spec, Password, spec.password.value)
    ensures forall key :: key in VncParams(spec) ==> key.RemoteDisplay?
  {
  }

  // What is read after writing every setting of `spec` agrees with `spec`.
  lemma {:induction false} ReadsWhatWasWritten(config: map<Key, string>, spec: Vnc)
    requires NoEmptyText(spec) && !WantsPort(spec) && !WantsPassword(spec)
    ensures var status := ReadVnc(config + VncParams(spec));
            Comparable(spec, status) && Agrees(spec, status)
  {
    ParamsOfVnc(spec);
    if spec.enabled.Some? {
      FlagRoundTrip(spec.enabled.value);
    }
  }

  lemma {:induction false} ConfigAfter(w: World, w': World, id: string, params: map<Key, string>)
    requires WroteAll(w, w', id, params) && id in w'.vms
    ensures id in w.vms && w'.vms[id].config == w.vms[id].config + params
  {
    assert Only(params, params.Keys) == params;
  }

  // The key under which this setting is written.
  function WrittenKey(setting: VncField): Key {
    RemoteDisplay(false, setting)
  }

  // From `config` to `config'` what `spec` sets was written, and nothing else.
  ghost predicate Carries(config: map<Key, string>, config': map<Key, string>, spec: Vnc) {
    && Lookup(config', WrittenKey(Enabled)) ==
         (match spec.enabled case None => Lookup(config, WrittenKey(Enabled)) case Some(b) => if b then "TRUE" else "FALSE")
    && Lookup(config', WrittenKey(Port)) == spec.port.GetOr(Lookup(config, WrittenKey(Port)))
    && Lookup(config', WrittenKey(Password)) == spec.password.GetOr(Lookup(config, WrittenKey(Password)))
    && forall key :: key !in {WrittenKey(Enabled), WrittenKey(Port), WrittenKey(Password)} ==>
         (key in config' <==> key in config) && Lookup(config', key) == Lookup(config, key)
  }

  /**
   What a pass that writes leaves in the VM's configuration: the flag as "TRUE" or "FALSE", port and
   password as they are, each if the spec, filled in, sets it; and all else as it was.
   */
  lemma {:induction false} SettingsWritten(id: string, m: Record, w: World, m': Record, w': World)
    requires m.vnc.Some? && VncWritten(id, m, w, m', w', Continue)
    ensures id in w.vms && id in w'.vms && m'.vnc.Some?
    ensures Carries(w.vms[id].config, w'.vms[id].config, m'.vnc.value)
  {
    ConfigAfter(w, w', id, VncParams(m'.vnc.value));
    ParamsLiterally(w.vms[id].config, m'.vnc.value);
  }

  lemma {:induction false} ParamsLiterally(config: map<Key, string>, spec: Vnc)
    ensures Carries(config, config + VncParams(spec), spec)
  {
  }

  lemma {:induction false} WriteSettles(id: string, m: Record, w: World, m': Record, w': World)
    requires m.vnc.Some? && NoEmptyText(m.vnc.value) && VncWritten(id, m, w, m', w', Continue)
    ensures m'.vncStatus.Some? && Comparable(m'.vnc.value, m'.vncStatus.value) && Agrees(m'.vnc.value, m'.vncStatus.value)
  {
    FilledIsFull(m.vnc.value, m'.vnc.value);
    ConfigAfter(w, w', id, VncParams(m'.vnc.value));
    ReadsWhatWasWritten(w.vms[id].config, m'.vnc.value);
  }

  lemma {:induction false} VncSettles(d: Desired, id: string, m: Record, w: World, m': Record, w': World)
    requires m.vncStatus.Some? && m.vnc.Some? && NoEmptyText(m.vnc.value)
    requires VncStage(d, id, m, w, m', w', Continue)
    ensures m'.vnc.Some? && m'.vncStatus.Some? && Filled(m.vnc.value, m'.vnc.value)
    ensures Comparable(m'.vnc.value, m'.vncStatus.value) && Agrees(m'.vnc.value, m'.vncStatus.value)
  {
    if !Agrees(m.vnc.value, m.vncStatus.value) {
      WriteSettles(id, m, w, m', w');
    }
  }

  /**
   A pass of the stage whose writes succeed leaves the status equal to every setting of the spec,
   generated ones included; so later passes neither write nor generate.
   */
  lemma {:induction false} VncSettledOnce(d: Desired, id: string, m: Record, w: World, m1: Record, w1: World,
                                          m2: Record, w2: World, m3: Record, w3: World, out: Outcome)
    requires m.vncStatus.Some? && m.vnc.Some? && NoEmptyText(m.vnc.value)
    requires VncStage(d, id, m, w, m1, w1, Continue)
    requires m2.vnc == m1.vnc && m2.vncStatus == m1.vncStatus && VncStage(d, id, m2, w2, m3, w3, out)
    ensures m1.vnc.Some? && m1.vncStatus.Some? && Filled(m.vnc.value, m1.vnc.value)
    ensures m1.vnc.value.enabled.Some? ==> m1.vncStatus.value.enabled == m1.vnc.value.enabled
    ensures m1.vnc.value.port.Some? ==> m1.vncStatus.value.port == m1.vnc.value.port
    ensures m1.vnc.value.password.Some? ==> m1.vncStatus.value.password == m1.vnc.value.password
    ensures m.vnc.value.port.None? && m.vnc.value.generatePort == Some(true) ==> m1.vnc.value.port.Some? && PortInRange(m1.vnc.value.port.value)
    ensures m.vnc.value.password.None? && m.vnc.value.generatePassword == Some(true) ==>
      m1.vnc.value.password.Some? && VncPassword(m1.vnc.value.password.value)
    ensures out == Continue && m3 == m2 && w3 == w2
  {
    VncSettles(d, id, m, w, m1, w1);
  }

  // From `spec` to `filled` nothing that was set changed; only a port or password asked for was generated.
  ghost predicate OnlyGenerated(spec: Option<Vnc>, filled: Option<Vnc>) {
    match spec
    case None => filled == None
    case Some(a) =>
      && filled.Some?
      && var b := filled.value;
      && b == a.(port := b.port, password := b.password)
      && (b.port == a.port || (a.port.None? && a.generatePort == Some(true) && b.port.Some? && PortInRange(b.port.value)))
      && (b.password == a.password ||
            (a.password.None? && a.generatePassword == Some(true) && b.password.Some? && VncPassword(b.password.value)))
  }

  lemma {:induction false} OnlyGeneratedTwice(a: Option<Vnc>, b: Option<Vnc>, c: Option<Vnc>)
    requires OnlyGenerated(a, b) && OnlyGenerated(b, c)
    ensures OnlyGenerated(a, c)
  {
  }

  /** The stage changes the spec only by generating what is asked for and not set. */
  lemma {:induction false} StageOnlyGenerates(d: Desired, id: string, m: Record, w: World, m': Record, w': World, out: Outcome)
    requires VncStage(d, id, m, w, m', w', out)
    ensures OnlyGenerated(m.vnc, m'.vnc)
  {
    if m.vnc.Some? && m'.vnc != m.vnc {
      assert Filled(m.vnc.value, m'.vnc.value);
    }
  }

  /******* A setting the VM does not have *******/

  // The configuration shows, in some readable way, every setting the spec has.
  predicate Shows(config: map<Key, string>, spec: Vnc) {
    && (spec.enabled.Some? ==> ParseBool(Setting(config, Enabled)).Some?)
    && (spec.port.Some? ==> Setting(config, Port) != "")
    && (spec.password.Some? ==> Setting(config, Password) != "")
  }

  // The spec sets something the status does not have: comparing the two reads a nil field.
  predicate Stuck(m: Record) {
    && m.vnc.Some? && m.vncStatus.Some?
    && (|| (m.vnc.value.enabled.Some? && m.vncStatus.value.enabled.None?)
        || (m.vnc.value.port.Some? && m.vncStatus.value.port.None?)
        || (m.vnc.value.password.Some? && m.vncStatus.value.password.None?))
  }

  /** Any pass of the stage: it dies of a nil dereference exactly if the record is stuck, and then changes nothing. */
  lemma {:induction false} VncPanicsExactly(d: Desired, id: string, m: Record, w: World, m': Record, w': World, out: Outcome)
    requires VncStage(d, id, m, w, m', w', out)
    ensures out == Panic <==> Stuck(m)
    ensures Stuck(m) ==> m' == m && w' == w
    ensures Stuck(m) ==> forall w1, m2, w2, out2 :: VncStage(d, id, m', w1, m2, w2, out2) ==> out2 == Panic && m2 == m
  {
    if Stuck(m) {
      assert !Comparable(m.vnc.value, m.vncStatus.value);
    }
  }

  // A setting that is to be generated and that the status does not have.
  predicate GeneratesUnseen(spec: Vnc, status: Vnc) {
    (WantsPort(spec) && status.port.None?) || (WantsPassword(spec) && status.password.None?)
  }

  // An empty text is asked for, and nothing under the lower-case prefix stands in for it.
  predicate AsksEmptyText(spec: Vnc, config: map<Key, string>) {
    || (spec.port == Some("") && Lookup(config, RemoteDisplay(true, Port)) == "")
    || (spec.password == Some("") && Lookup(config, RemoteDisplay(true, Password)) == "")
  }

  // The first read does not find a setting of the spec; or a write that fails leaves a generated one
  // in the spec alone; or an empty text, once written, is read back as no text.
  predicate Sticks(id: string, m: Record, w: World, out: Outcome) {
    m.vnc.Some? &&
    if m.vncStatus.None? then
      out == Requeue && id in w.vms && !Shows(w.vms[id].config, m.vnc.value)
    else
      && !Agrees(m.vnc.value, m.vncStatus.value)
      && ((out == Error && GeneratesUnseen(m.vnc.value, m.vncStatus.value))
          || (out == Continue && id in w.vms && AsksEmptyText(m.vnc.value, w.vms[id].config)))
  }

  lemma {:induction false} ReadSticks(config: map<Key, string>, m: Record)
    requires m.vnc.Some? && m.vncStatus == Some(ReadVnc(config))
    ensures Stuck(m) <==> !Shows(config, m.vnc.value)
  {
  }

  lemma {:induction false} LostWriteSticks(spec: Vnc, m': Record)
    requires m'.vnc.Some? && m'.vncStatus.Some? && Filled(spec, m'.vnc.value) && Comparable(spec, m'.vncStatus.value)
    ensures Stuck(m') <==> GeneratesUnseen(spec, m'.vncStatus.value)
  {
  }

  // After all settings were written, only an empty text is not shown.
  lemma {:induction false} WrittenShows(config: map<Key, string>, spec: Vnc)
    ensures Shows(config + VncParams(spec), spec) <==> !AsksEmptyText(spec, config)
  {
    ParamsOfVnc(spec);
    if spec.enabled.Some? {
      FlagRoundTrip(spec.enabled.value);
    }
  }

  lemma {:induction false} FilledAsksAlike(spec: Vnc, filled: Vnc, config: map<Key, string>)
    requires Filled(spec, filled)
    ensures AsksEmptyText(filled, config) <==> AsksEmptyText(spec, config)
  {
    if WantsPort(spec) {
      PortDigits(filled.port.value);
    }
  }

  lemma {:induction false} WriteSticks(id: string, m: Record, w: World, m': Record, w': World)
    requires m.vnc.Some? && VncWritten(id, m, w, m', w', Continue)
    ensures id in w.vms && (Stuck(m') <==> AsksEmptyText(m.vnc.value, w.vms[id].config))
  {
    ConfigAfter(w, w', id, VncParams(m'.vnc.value));
    ReadSticks(w'.vms[id].config, m');
    WrittenShows(w.vms[id].config, m'.vnc.value);
    FilledAsksAlike(m.vnc.value, m'.vnc.value, w.vms[id].config);
  }

  /** A pass of the stage that does not find the record stuck leaves it so exactly in the three cases of `Sticks`. */
  lemma {:induction false} VncSticksExactly(d: Desired, id: string, m: Record, w: World, m': Record, w': World, out: Outcome)
    requires VncStage(d, id, m, w, m', w', out) && !Stuck(m)
    ensures Stuck(m') <==> Sticks(id, m, w, out)
  {
    if m.vnc.Some? {
      if m.vncStatus.None? {
        if out == Requeue {
          ReadSticks(w.vms[id].config, m');
        }
      } else if !Agrees(m.vnc.value, m.vncStatus.value) {
        if out == Error {
          LostWriteSticks(m.vnc.value, m');
        } else {
          WriteSticks(id, m, w, m', w');
        }
      }
    }
  }

  // A record that asks for a generated port and nothing else, on a VM without VNC settings.
  function GeneratesPort(): Record {
    var spec := Vnc(None, None, None, Some(true), None);
    var status := Vnc(None, None, None, None, None);
    Record(true, false, Some("vm"), None, Some(spec), None, Hardware(0, 0), None, [], Some(status), [], false, false, false)
  }

  /** One failed write after a port was generated, and the stage dies in every later pass, whatever the world. */
  lemma {:induction false} FailedGenerationSticks(d: Desired, id: string, w: World, m': Record, w': World)
    requires VncStage(d, id, GeneratesPort(), w, m', w', Error)
    ensures Shows(map[], GeneratesPort().vnc.value) && Stuck(m')
    ensures forall w1, m2, w2, out :: VncStage(d, id, m', w1, m2, w2, out) ==> out == Panic && m2 == m'
  {
    VncSticksExactly(d, id, GeneratesPort(), w, m', w', Error);
  }
}
