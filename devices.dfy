/**
 * A device object: the identity shared by every kind (`Device.__init__`),
 * its kind-specific state, and the imperative `execute_command`.
 */
module Devices {
  import opened Wrappers
  import opened Commands

  /** `get_info`: the identity fields and the last-update time. */
  datatype InfoRecord = InfoRecord(deviceId: string, name: string, location: string, isOnline: bool, lastUpdated: nat)

  /** `get_status`: the identity fields, the type name, and the kind-specific fields. */
  datatype StatusRecord = StatusRecord(info: InfoRecord, typeName: string, kind: Kind)

  class Device {
    const deviceId: string
    const name: string
    const location: string
    /** The device's class name; it never changes. */
    const typeName: string
    var isOnline: bool
    var lastUpdated: nat
    var state: Kind

    /** Nothing sets a device offline, the state keeps its kind, and commands keep WellFormed. */
    ghost predicate Valid()
      reads this
    {
      isOnline && TypeName(state) == typeName && WellFormed(state)
    }

    constructor Light(deviceId: string, name: string, location: string, now: nat)
      ensures this.deviceId == deviceId && this.name == name && this.location == location
      ensures isOnline && lastUpdated == now && state == DefaultLight
      ensures typeName == "Light" && Valid()
    {
      this.deviceId, this.name, this.location := deviceId, name, location;
      isOnline, lastUpdated := true, now;
      typeName, state := "Light", DefaultLight;
    }

    constructor Thermostat(deviceId: string, name: string, location: string, now: nat)
      ensures this.deviceId == deviceId && this.name == name && this.location == location
      ensures isOnline && lastUpdated == now && state == DefaultThermostat
      ensures typeName == "Thermostat" && Valid()
    {
      this.deviceId, this.name, this.location := deviceId, name, location;
      isOnline, lastUpdated := true, now;
      typeName, state := "Thermostat", DefaultThermostat;
    }

    constructor SecurityCamera(deviceId: string, name: string, location: string, now: nat)
      ensures this.deviceId == deviceId && this.name == name && this.location == location
      ensures isOnline && lastUpdated == now && state == DefaultCamera
      ensures typeName == "SecurityCamera" && Valid()
    {
      this.deviceId, this.name, this.location := deviceId, name, location;
      isOnline, lastUpdated := true, now;
      typeName, state := "SecurityCamera", DefaultCamera;
    }

    constructor DoorLock(deviceId: string, name: string, location: string, now: nat)
      ensures this.deviceId == deviceId && this.name == name && this.location == location
      ensures isOnline && lastUpdated == now && state == DefaultLock
      ensures typeName == "DoorLock" && Valid()
    {
      this.deviceId, this.name, this.location := deviceId, name, location;
      isOnline, lastUpdated := true, now;
      typeName, state := "DoorLock", DefaultLock;
    }

    function Info(): (r: InfoRecord)
      reads this
      ensures r.deviceId == deviceId && r.name == name && r.location == location
      ensures r.isOnline == isOnline && r.lastUpdated == lastUpdated
    {
      InfoRecord(deviceId, name, location, isOnline, lastUpdated)
    }

    /** The status names the device's own class, whatever its state. */
    function Status(): (r: StatusRecord)
      requires Valid()
      reads this
      ensures r.info == Info() && r.kind == state
      ensures r.typeName == typeName
      ensures r.typeName == "Light" <==> state.Light?
      ensures r.typeName == "Thermostat" <==> state.Thermostat?
      ensures r.typeName == "SecurityCamera" <==> state.SecurityCamera?
      ensures r.typeName == "DoorLock" <==> state.DoorLock?
    {
      StatusRecord(Info(), TypeName(state), state)
    }

    /**
     * Stamps `lastUpdated`, then applies the command if this kind knows it and
     * its arguments are valid; otherwise the kind-specific state is left alone.
     */
    method ExecuteCommand(command: string, kwargs: Kwargs, now: nat) returns (ok: bool)
      requires Valid() && ArgsFit(state, command, kwargs)
      modifies this
      ensures Valid()
      ensures lastUpdated == now && isOnline == old(isOnline)
      ensures Outcome(state, ok) == Step(old(state), command, kwargs, now)
    {
      lastUpdated := now;
      ok := false;
      match state {
        case Light(isOn, _, _) =>
          if command == "turn_on" {
            state := Commands.Light(true, state.brightness, state.color);
            if "brightness" in kwargs {
              state := state.(brightness := Clamp(kwargs["brightness"].i));
            }
            if "color" in kwargs {
              state := state.(color := kwargs["color"]);
            }
            ok := true;
          } else if command == "turn_off" {
            state := Commands.Light(false, state.brightness, state.color);
            state := state.(brightness := 0);
            ok := true;
          } else if command == "set_brightness" {
            if isOn && "level" in kwargs {
              state := state.(brightness := Clamp(kwargs["level"].i));
              ok := true;
            }
          } else if command == "set_color" {
            if "color" in kwargs {
              state := state.(color := kwargs["color"]);
              ok := true;
            }
          }
        case Thermostat(_, _, _, _) =>
          if command == "set_temperature" {
            if "temp" in kwargs {
              state := state.(targetTemp := kwargs["temp"]);
              ok := true;
            }
          } else if command == "set_mode" {
            if "mode" in kwargs && kwargs["mode"].PStr? && kwargs["mode"].s in ThermostatModes {
              state := state.(mode := kwargs["mode"].s);
              state := state.(isOn := kwargs["mode"].s != "off");
              ok := true;
            }
          } else if command == "turn_on" {
            state := Commands.Thermostat(state.currentTemp, state.targetTemp, state.mode, true);
            ok := true;
          } else if command == "turn_off" {
            state := Commands.Thermostat(state.currentTemp, state.targetTemp, state.mode, false);
            state := state.(mode := "off");
            ok := true;
          }
        case SecurityCamera(_, _, _) =>
          if command == "start_recording" {
            state := state.(isRecording := true);
            ok := true;
          } else if command == "stop_recording" {
            state := state.(isRecording := false);
            ok := true;
          } else if command == "set_resolution" {
            if "resolution" in kwargs {
              state := state.(resolution := kwargs["resolution"]);
              ok := true;
            }
          }
        case DoorLock(_, _) =>
          if command == "lock" {
            state := state.(isLocked := true);
            state := state.(lastAccess := Some(now));
            ok := true;
          } else if command == "unlock" {
            state := state.(isLocked := false);
            state := state.(lastAccess := Some(now));
            ok := true;
          }
      }
    }
  }
}
