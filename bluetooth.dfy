/** The Bluetooth power decisions: which `bluetoothctl power` command a
    switch reading and a reported power state lead to, and the power-off /
    power-on pair around playback in the later scripts. Running
    `bluetoothctl` is outside the model; a command is the power it asks for
    (`true` for on), and the power it leaves is that value. */
module Bluetooth {
  import opened Optional

  /** `GPIO.LOW` and `GPIO.HIGH` as `GPIO.input` returns them. */
  const Low := 0
  const High := 1

  /** The power after a command, or the old power when none is issued. */
  function Apply(powered: bool, command: Option<bool>): bool
  {
    if command.Some? then command.value else powered
  }

  /** perfect.py:174-177 and 190-198: switch LOW with power on turns it off,
      switch HIGH with power off turns it on, anything else issues nothing. */
  function Reconcile(level: int, powered: bool): Option<bool>
  {
    if level == Low && powered then Some(false)
    else if level == High && !powered then Some(true)
    else None
  }

  /** A command is issued exactly when the switch and the power disagree, it
      sets the power to match the switch, and one reconcile is enough:
      a second one issues nothing. */
  lemma ReconcileSpec(level: int, powered: bool)
    requires level == Low || level == High
    ensures Reconcile(level, powered).Some? <==> (level == High) != powered
    ensures Apply(powered, Reconcile(level, powered)) == (level == High)
    ensures Reconcile(level, Apply(powered, Reconcile(level, powered))) == None
  {
  }

  /** complete-bt.py:158-166 and shuffle.py:130-137: LOW turns power off,
      any other reading turns it on, whatever the current state. */
  function SwitchCommand(level: int): bool
  {
    level != Low
  }

  /** shuffle-bluetooth.py:144-148: a truthy reading turns power on, a falsy one off. */
  function TruthySwitchCommand(level: int): bool
  {
    if level != 0 then true else false
  }

  /** The unconditional rules and the reconciling rule agree on the power
      they leave; they differ only in issuing a command when nothing needs
      to change. */
  lemma SwitchRulesAgree(level: int, powered: bool)
    requires level == Low || level == High
    ensures SwitchCommand(level) == TruthySwitchCommand(level) == Apply(powered, Reconcile(level, powered))
    ensures Reconcile(level, powered) == None ==> SwitchCommand(level) == powered
  {
  }

  /** shuffle.py:45-47: the shell command `toggle_bluetooth` runs. */
  function PowerCommand(isOn: bool): string
  {
    "bluetoothctl power " + (if isOn then "on" else "off")
  }

  /** Reads a power command back; anything else is not one. */
  function ParsePowerCommand(s: string): Option<bool>
  {
    if s == "bluetoothctl power on" then Some(true)
    else if s == "bluetoothctl power off" then Some(false)
    else None
  }

  /** The command text names the requested state and no other. */
  lemma PowerCommandRoundTrip(isOn: bool)
    ensures ParsePowerCommand(PowerCommand(isOn)) == Some(isOn)
    ensures PowerCommand(isOn) != PowerCommand(!isOn)
  {
    assert PowerCommand(true) == "bluetoothctl power on";
    assert PowerCommand(false) == "bluetoothctl power off";
    assert |PowerCommand(true)| != |PowerCommand(false)|;
  }

  /** `check_bluetooth_status`: "Powered: yes" in the output, and a
      time-out is taken to mean powered on. */
  function ReportedOn(powered: bool, timedOut: bool): bool
  {
    timedOut || powered
  }

  /** The power left by a list of commands issued in order. */
  function FinalPower(powered: bool, commands: seq<bool>): bool
  {
    if commands == [] then powered else commands[|commands| - 1]
  }

  /** works.py:91-97 and 114-116 (also final.py, new.py and
      final-broken-modified.py): power off at scan time iff reported on;
      for a mapped tag, after playback, power on iff it was reported off. */
  function ScanPowerCommands(reportedOn: bool, mapped: bool): seq<bool>
  {
    (if reportedOn then [false] else []) + (if mapped && !reportedOn then [true] else [])
  }

  lemma ScanPowerCommandsSpec(reportedOn: bool, mapped: bool)
    ensures false in ScanPowerCommands(reportedOn, mapped) <==> reportedOn
    ensures true in ScanPowerCommands(reportedOn, mapped) <==> mapped && !reportedOn
    ensures |ScanPowerCommands(reportedOn, mapped)| <= 1
  {
  }

  /** As written, a mapped read leaves the power opposite to what was
      reported: power that was on stays off, power that was off is turned on. */
  lemma ScanPowerInverted(powered: bool)
    ensures FinalPower(powered, ScanPowerCommands(ReportedOn(powered, false), true)) == !powered
  {
  }

  /** The evident intent, "turn Bluetooth back on if it was turned off":
      power on after playback iff this read powered it off. */
  function RestoringScanPowerCommands(reportedOn: bool, mapped: bool): seq<bool>
  {
    if reportedOn then [false] + (if mapped then [true] else []) else []
  }

  /** A mapped read then leaves the power as it found it, and a read never
      powers on a radio that was off. */
  lemma RestoringScanPowerSpec(powered: bool, mapped: bool)
    ensures mapped ==> FinalPower(powered, RestoringScanPowerCommands(ReportedOn(powered, false), mapped)) == powered
    ensures !powered ==> RestoringScanPowerCommands(ReportedOn(powered, false), mapped) == []
    ensures true in RestoringScanPowerCommands(ReportedOn(powered, false), mapped) ==> false in RestoringScanPowerCommands(ReportedOn(powered, false), mapped)
  {
  }

  /** test-pn532.py:88-92 and 110-112: after playback the status is asked
      again (`requeried`), and power is turned on when that report says off. */
  function RequeryScanPowerCommands(reportedOn: bool, mapped: bool, requeried: bool): seq<bool>
  {
    (if reportedOn then [false] else []) + (if mapped && !requeried then [true] else [])
  }

  /** When the second report is accurate, a mapped read always ends with
      power on, whatever it was before. */
  lemma RequeryScanEndsOn(powered: bool)
    ensures var reported := ReportedOn(powered, false);
      var afterOff := FinalPower(powered, if reported then [false] else []);
      FinalPower(powered, RequeryScanPowerCommands(reported, true, ReportedOn(afterOff, false)))
  {
  }
}
