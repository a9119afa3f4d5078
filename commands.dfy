/**
 * The kind-specific state of the four device classes of smart_home.py and
 * the pure state machines behind their `execute_command` methods.
 *
 * Wall-clock time is an abstract natural-number timestamp handed in by the
 * caller; keyword arguments are a map from names to integer or string values.
 */
module Commands {
  import opened Wrappers

  /** One keyword-argument value of a command call. */
  datatype Param = PInt(i: int) | PStr(s: string)

  /** The `**kwargs` of a command call. */
  type Kwargs = map<string, Param>

  /** Kind-specific state, one constructor per device class. */
  datatype Kind =
    | Light(isOn: bool, brightness: int, color: Param)
    | Thermostat(currentTemp: Param, targetTemp: Param, mode: string, isOn: bool)
    | SecurityCamera(isRecording: bool, motionDetected: bool, resolution: Param)
    | DoorLock(isLocked: bool, lastAccess: Option<nat>)

  /** What a command did: the new kind-specific state and the returned flag. */
  datatype Outcome = Outcome(next: Kind, ok: bool)

  /** One `execute_command` call: name, keyword arguments, and the time it happens. */
  datatype Call = Call(command: string, kwargs: Kwargs, at: nat)

  const ThermostatModes: set<string> := {"auto", "heat", "cool", "off"}

  const DefaultLight: Kind := Light(false, 0, PStr("white"))
  const DefaultThermostat: Kind := Thermostat(PInt(25), PInt(22), "auto", true)
  const DefaultCamera: Kind := SecurityCamera(false, false, PStr("1080p"))
  const DefaultLock: Kind := DoorLock(true, None)

  /** The class name of a device kind, as reported under "type". */
  function TypeName(k: Kind): (r: string)
    ensures r == "Light" <==> k.Light?
    ensures r == "Thermostat" <==> k.Thermostat?
    ensures r == "SecurityCamera" <==> k.SecurityCamera?
    ensures r == "DoorLock" <==> k.DoorLock?
  {
    match k
    case Light(_, _, _) => "Light"
    case Thermostat(_, _, _, _) => "Thermostat"
    case SecurityCamera(_, _, _) => "SecurityCamera"
    case DoorLock(_, _) => "DoorLock"
  }

  /** The type name tells the kinds apart. */
  lemma TypeNameIdentifiesKind(a: Kind, b: Kind)
    ensures TypeName(a) == TypeName(b) <==>
      (a.Light? && b.Light?) || (a.Thermostat? && b.Thermostat?) ||
      (a.SecurityCamera? && b.SecurityCamera?) || (a.DoorLock? && b.DoorLock?)
  {
  }

  /** Command names each kind recognises. */
  function Commands(k: Kind): set<string>
  {
    match k
    case Light(_, _, _) => {"turn_on", "turn_off", "set_brightness", "set_color"}
    case Thermostat(_, _, _, _) => {"set_temperature", "set_mode", "turn_on", "turn_off"}
    case SecurityCamera(_, _, _) => {"start_recording", "stop_recording", "set_resolution"}
    case DoorLock(_, _) => {"lock", "unlock"}
  }

  /** The invariant every command keeps: brightness within [0,100], a known thermostat mode. */
  ghost predicate WellFormed(k: Kind)
  {
    (k.Light? ==> 0 <= k.brightness <= 100) &&
    (k.Thermostat? ==> k.mode in ThermostatModes)
  }

  /**
   * The arguments a call on a device in state `k` can be given without
   * raising: a light hands `brightness` to `min` on turn_on, and `level` on
   * set_brightness when it is on; `min` raises on a string.
   */
  predicate ArgsFit(k: Kind, command: string, kw: Kwargs)
  {
    k.Light? ==>
      (command == "turn_on" && "brightness" in kw ==> kw["brightness"].PInt?) &&
      (command == "set_brightness" && k.isOn && "level" in kw ==> kw["level"].PInt?)
  }

  /** `max(0, min(100, b))`. */
  function Clamp(b: int): (r: int)
    ensures 0 <= r <= 100
    ensures 0 <= b <= 100 ==> r == b
    ensures b < 0 ==> r == 0
    ensures 100 < b ==> r == 100
  {
    var upper := if 100 < b then 100 else b;
    if upper < 0 then 0 else upper
  }

  /** `Light.execute_command`, without the timestamp. */
  function LightStep(s: Kind, command: string, kw: Kwargs): (r: Outcome)
    requires s.Light? && ArgsFit(s, command, kw)
    ensures r.next.Light?
    ensures r.ok <==>
      command == "turn_on" || command == "turn_off" ||
      (command == "set_brightness" && s.isOn && "level" in kw) ||
      (command == "set_color" && "color" in kw)
    ensures !r.ok ==> r.next == s
    ensures 0 <= s.brightness <= 100 ==> 0 <= r.next.brightness <= 100
    ensures command == "turn_on" ==>
      r.next.isOn &&
      r.next.brightness == (if "brightness" in kw then Clamp(kw["brightness"].i) else s.brightness) &&
      r.next.color == (if "color" in kw then kw["color"] else s.color)
    ensures command == "turn_off" ==> !r.next.isOn && r.next.brightness == 0 && r.next.color == s.color
    ensures command == "set_brightness" && r.ok ==>
      r.next == s.(brightness := Clamp(kw["level"].i))
    ensures command == "set_color" && r.ok ==> r.next == s.(color := kw["color"])
  {
    if command == "turn_on" then
      var brightness := if "brightness" in kw then Clamp(kw["brightness"].i) else s.brightness;
      var color := if "color" in kw then kw["color"] else s.color;
      Outcome(Light(true, brightness, color), true)
    else if command == "turn_off" then
      Outcome(s.(isOn := false, brightness := 0), true)
    else if command == "set_brightness" && s.isOn && "level" in kw then
      Outcome(s.(brightness := Clamp(kw["level"].i)), true)
    else if command == "set_color" && "color" in kw then
      Outcome(s.(color := kw["color"]), true)
    else
      Outcome(s, false)
  }

  /** `Thermostat.execute_command`, without the timestamp. */
  function ThermostatStep(s: Kind, command: string, kw: Kwargs): (r: Outcome)
    requires s.Thermostat?
    ensures r.next.Thermostat? && r.next.currentTemp == s.currentTemp
    ensures r.ok <==>
      command == "turn_on" || command == "turn_off" ||
      (command == "set_temperature" && "temp" in kw) ||
      (command == "set_mode" && "mode" in kw && kw["mode"].PStr? && kw["mode"].s in ThermostatModes)
    ensures !r.ok ==> r.next == s
    ensures s.mode in ThermostatModes ==> r.next.mode in ThermostatModes
    ensures command == "set_temperature" && r.ok ==> r.next == s.(targetTemp := kw["temp"])
    ensures command == "set_mode" && r.ok ==>
      r.next.mode == kw["mode"].s && (r.next.isOn <==> r.next.mode != "off") &&
      r.next.targetTemp == s.targetTemp
    ensures command == "turn_on" ==> r.next == Thermostat(s.currentTemp, s.targetTemp, s.mode, true)
    ensures command == "turn_off" ==> r.next == s.(isOn := false, mode := "off")
  {
    if command == "set_temperature" && "temp" in kw then
      Outcome(s.(targetTemp := kw["temp"]), true)
    else if command == "set_mode" && "mode" in kw && kw["mode"].PStr? && kw["mode"].s in ThermostatModes then
      var mode := kw["mode"].s;
      Outcome(s.(mode := mode, isOn := mode != "off"), true)
    else if command == "turn_on" then
      Outcome(Thermostat(s.currentTemp, s.targetTemp, s.mode, true), true)
    else if command == "turn_off" then
      Outcome(s.(isOn := false, mode := "off"), true)
    else
      Outcome(s, false)
  }

  /** `SecurityCamera.execute_command`, without the timestamp. */
  function CameraStep(s: Kind, command: string, kw: Kwargs): (r: Outcome)
    requires s.SecurityCamera?
    ensures r.next.SecurityCamera? && r.next.motionDetected == s.motionDetected
    ensures r.ok <==>
      command == "start_recording" || command == "stop_recording" ||
      (command == "set_resolution" && "resolution" in kw)
    ensures !r.ok ==> r.next == s
    ensures command == "start_recording" ==> r.next == s.(isRecording := true)
    ensures command == "stop_recording" ==> r.next == s.(isRecording := false)
    ensures command == "set_resolution" && r.ok ==> r.next == s.(resolution := kw["resolution"])
  {
    if command == "start_recording" then
      Outcome(s.(isRecording := true), true)
    else if command == "stop_recording" then
      Outcome(s.(isRecording := false), true)
    else if command == "set_resolution" && "resolution" in kw then
      Outcome(s.(resolution := kw["resolution"]), true)
    else
      Outcome(s, false)
  }

  /** `DoorLock.execute_command`, without the timestamp; `now` is the access time. */
  function LockStep(s: Kind, command: string, now: nat): (r: Outcome)
    requires s.DoorLock?
    ensures r.next.DoorLock?
    ensures r.ok <==> command == "lock" || command == "unlock"
    ensures !r.ok ==> r.next == s
    ensures r.ok ==> r.next == DoorLock(command == "lock", Some(now))
    ensures s.lastAccess.Some? ==> r.next.lastAccess.Some?
  {
    if command == "lock" then
      Outcome(DoorLock(true, Some(now)), true)
    else if command == "unlock" then
      Outcome(DoorLock(false, Some(now)), true)
    else
      Outcome(s, false)
  }

  /** `execute_command` dispatched on the device's kind. */
  function Step(k: Kind, command: string, kw: Kwargs, now: nat): (r: Outcome)
    requires ArgsFit(k, command, kw)
    ensures TypeName(r.next) == TypeName(k)
    ensures WellFormed(k) ==> WellFormed(r.next)
    ensures r.ok ==> command in Commands(k)
    ensures !r.ok ==> r.next == k
  {
    match k
    case Light(_, _, _) => LightStep(k, command, kw)
    case Thermostat(_, _, _, _) => ThermostatStep(k, command, kw)
    case SecurityCamera(_, _, _) => CameraStep(k, command, kw)
    case DoorLock(_, _) => LockStep(k, command, now)
  }

  /** An unrecognised command name fails and leaves the kind-specific state alone. */
  lemma UnknownCommandChangesNothing(k: Kind, command: string, kw: Kwargs, now: nat)
    requires command !in Commands(k)
    ensures Step(k, command, kw, now) == Outcome(k, false)
  {
  }

  /** A command that the kind knows and that needs no argument always succeeds. */
  lemma ArgumentFreeCommandsSucceed(k: Kind, command: string, kw: Kwargs, now: nat)
    requires ArgsFit(k, command, kw) && command in Commands(k)
    requires command !in {"set_brightness", "set_color", "set_temperature", "set_mode", "set_resolution"}
    ensures Step(k, command, kw, now).ok
  {
  }

  /** Each call's arguments fit the state the earlier calls leave behind. */
  predicate Runnable(k: Kind, calls: seq<Call>)
    decreases |calls|
  {
    calls == [] ||
    (ArgsFit(k, calls[0].command, calls[0].kwargs) &&
     Runnable(Step(k, calls[0].command, calls[0].kwargs, calls[0].at).next, calls[1..]))
  }

  /** The kind-specific state after a sequence of calls, in order. */
  function Run(k: Kind, calls: seq<Call>): (r: Kind)
    requires Runnable(k, calls)
    ensures TypeName(r) == TypeName(k)
    decreases |calls|
  {
    if calls == [] then k
    else Run(Step(k, calls[0].command, calls[0].kwargs, calls[0].at).next, calls[1..])
  }

  /** Brightness stays in [0,100] and the thermostat mode stays known after any calls. */
  lemma {:induction false} RunKeepsWellFormed(k: Kind, calls: seq<Call>)
    requires WellFormed(k) && Runnable(k, calls)
    ensures WellFormed(Run(k, calls))
    decreases |calls|
  {
    if calls != [] {
      RunKeepsWellFormed(Step(k, calls[0].command, calls[0].kwargs, calls[0].at).next, calls[1..]);
    }
  }

  /** Once a lock has been accessed, `last_access` is never `None` again. */
  lemma {:induction false} RunKeepsLastAccess(k: Kind, calls: seq<Call>)
    requires k.DoorLock? && k.lastAccess.Some? && Runnable(k, calls)
    ensures Run(k, calls).DoorLock? && Run(k, calls).lastAccess.Some?
    decreases |calls|
  {
    if calls != [] {
      var next := Step(k, calls[0].command, calls[0].kwargs, calls[0].at).next;
      RunKeepsLastAccess(next, calls[1..]);
    }
  }

  /** Unlocking and then locking leaves the door locked, accessed at the second call. */
  lemma UnlockThenLock(k: Kind, kw1: Kwargs, kw2: Kwargs, t1: nat, t2: nat)
    requires k.DoorLock?
    ensures Runnable(k, [Call("unlock", kw1, t1), Call("lock", kw2, t2)]) &&
            Run(k, [Call("unlock", kw1, t1), Call("lock", kw2, t2)]) == DoorLock(true, Some(t2))
  {
    var calls := [Call("unlock", kw1, t1), Call("lock", kw2, t2)];
    var unlocked := DoorLock(false, Some(t1));
    assert Step(k, "unlock", kw1, t1).next == unlocked;
    assert calls[1..] == [Call("lock", kw2, t2)];
    assert Runnable(DoorLock(true, Some(t2)), calls[1..][1..]);
    assert Runnable(unlocked, calls[1..]);
    assert Run(unlocked, calls[1..]) == Run(DoorLock(true, Some(t2)), []);
  }
}
