# Smart home device registry, modelled in Dafny

This project models the core of `smart_home.py`, a simulated home-automation
controller. It covers four device kinds and the `SmartHome` registry:

- `Light`, `Thermostat`, `SecurityCamera` and `DoorLock` each carry typed state and
  accept named commands with keyword arguments.
- `SmartHome` keeps devices by id in insertion order. It adds, removes, looks up,
  forwards commands, filters by location or type, and summarises the system.

Layout:

- `wrappers.dfy` — `Option`, standing for Python's `None`.
- `commands.dfy` (module `Commands`) — the kind-specific state as one datatype `Kind`.
  It holds the four command state machines (`LightStep`, `ThermostatStep`,
  `CameraStep`, `LockStep`), the dispatch `Step`, and the invariant `WellFormed`.
  `WellFormed` says brightness is in [0,100] and the thermostat mode is one of
  auto/heat/cool/off. `Run` folds a sequence of calls.
- `devices.dfy` (module `Devices`) — class `Device`. It has the shared identity
  (`deviceId`, `name`, `location`, and the class name `typeName`, all constant), the
  mutable `isOnline`, `lastUpdated` and `state`, one constructor per kind, `Info`,
  `Status`, and the imperative `ExecuteCommand`. `ExecuteCommand` is proved to agree
  with `Commands.Step`.
- `home.dfy` (module `Home`) — class `SmartHome`. Python's dict is the pair
  `ids` (keys in insertion order) and `devices` (key to device object).
  `Indexed()` keeps the pair consistent: keys are distinct, they are the map's keys,
  and every device sits under its own id. `Valid()` adds that every stored device is valid.
- `scenarios.dfy` — client methods that replay the scenarios of `test_smart_home.py`
  against the contracts alone.

Modelling choices:

- **Time.** Each `datetime.now()` reading becomes a `now: nat` argument of the
  constructors, `ExecuteCommand` and `ControlDevice`.
- **Keyword arguments.** `**kwargs` is a `map<string, Param>`, where `Param` is an
  integer or a string.
- **Stored values.** `color`, `resolution`, `current_temp` and `target_temp` hold a
  `Param`. The source stores whatever value the caller passes there.
- **Argument handling, as in smart_home.py:**
  - `set_temperature` stores a value of any type.
  - `set_mode` fails on a non-string `mode`, because the value is not in the list of modes.
  - A string `brightness` on a light's `turn_on`, or a string `level` on `set_brightness`
    of a light that is on, raises `TypeError` in `min`. Every other light call ignores the
    type of those two arguments.

## Model

| member | source | states |
|---|---|---|
| Commands.Clamp | smart_home.py:69 | the clamped value lies in [0,100]; it is the input when the input is in range, 0 below the range and 100 above it |
| Commands.TypeName | smart_home.py:244-247 | each kind gets its own class name: "Light" exactly for a light, "Thermostat" for a thermostat, "SecurityCamera" for a camera, "DoorLock" for a lock |
| Commands.TypeNameIdentifiesKind | smart_home.py:244-247 | two states have the same type name exactly when they are of the same kind |
| Commands.LightStep | smart_home.py:62-86 | succeeds exactly for turn_on, turn_off, set_brightness when on with `level`, and set_color with `color`. On failure nothing changes. Brightness stays in [0,100]. turn_on switches on and takes the clamped `brightness` and the `color` when given, otherwise keeps them. turn_off gives off with brightness 0. set_brightness and set_color change only their field |
| Commands.ThermostatStep | smart_home.py:110-131 | succeeds exactly for turn_on, turn_off, set_temperature with `temp`, and set_mode with a mode in {auto,heat,cool,off}. On failure nothing changes. The mode stays in that set. A successful set_mode sets the mode and is_on = (mode != "off"). turn_off sets is_on false and mode "off". turn_on only sets is_on. current_temp never changes |
| Commands.CameraStep | smart_home.py:153-168 | start/stop_recording always succeed and only set is_recording. set_resolution succeeds exactly when `resolution` is given. On failure nothing changes. motion_detected never changes |
| Commands.LockStep | smart_home.py:188-201 | lock/unlock always succeed, set is_locked accordingly and record the access time. Anything else fails and changes nothing. A recorded access time is never cleared |
| Commands.Step | smart_home.py:27-30 | dispatch keeps the device's kind and the invariant. Success implies the command is one the kind recognises. Failure leaves the kind-specific state unchanged |
| Commands.UnknownCommandChangesNothing | smart_home.py:62-201 | for every kind, a command name the kind does not recognise returns false and leaves the kind-specific state as it was |
| Commands.ArgumentFreeCommandsSucceed | smart_home.py:62-201 | every recognised command that takes no required argument returns true, whatever the state |
| Commands.Run | smart_home.py:62-201 | a device never changes kind, whatever commands it receives (each call with arguments that do not raise in the state the earlier calls leave) |
| Commands.RunKeepsWellFormed | smart_home.py:46-131 | after any sequence of commands, brightness is in [0,100] and the thermostat mode is in {auto,heat,cool,off} |
| Commands.RunKeepsLastAccess | smart_home.py:188-201 | once a lock has a last access time, no later command clears it |
| Commands.UnlockThenLock | test_smart_home.py:150-156 | unlock then lock leaves the door locked, with its last access at the time of the lock |
| Devices.Device.Light | smart_home.py:46-50 | a new light is online, stamped now, off, brightness 0, color "white" |
| Devices.Device.Thermostat | smart_home.py:92-97 | a new thermostat is online, stamped now, current 25, target 22, mode "auto", on |
| Devices.Device.SecurityCamera | smart_home.py:137-141 | a new camera is online, stamped now, not recording, no motion, resolution "1080p" |
| Devices.Device.DoorLock | smart_home.py:174-177 | a new lock is online, stamped now, locked, with no last access |
| Devices.Device.Info | smart_home.py:32-40 | the info record carries the device's id, name, location, online flag and last update time |
| Devices.Device.Status | smart_home.py:52-60 | the status carries the info record and the kind-specific fields. Its type name is the device's class name, and it is "Light", "Thermostat", "SecurityCamera" or "DoorLock" exactly for a state of that kind |
| Devices.Device.ExecuteCommand | smart_home.py:62-201 | stamps last_updated with the call time, whether or not the command succeeds. The new state and the returned flag are those of `Step`. The device stays online and valid |
| Home.Erase | smart_home.py:221 | the remaining keys are exactly the old ones minus the erased key. A duplicate-free key list stays duplicate-free |
| Home.EraseAbsent | smart_home.py:218-223 | erasing an absent key leaves the key order as it was |
| Home.EraseAt | smart_home.py:221 | erasing a present key removes exactly its position, and the other keys keep their order |
| Home.EraseAppend | smart_home.py:221 | erasing a key from two concatenated key lists erases it from each part |
| Home.AddThenRemoveRestores | test_smart_home.py:180-185 | adding a device under a fresh id and then removing that id gives back the same key order and the same map |
| Home.SmartHome.constructor | smart_home.py:207-209 | a new registry has the given name, which defaults to "My Smart Home", and no devices |
| Home.SmartHome.KeysCount | smart_home.py:253 | the number of stored devices equals the number of ids in insertion order |
| Home.SmartHome.StoredUnderOwnId | smart_home.py:213-214 | every stored device is stored under its own device id |
| Home.SmartHome.AddDevice | smart_home.py:211-216 | returns true exactly when the id is absent. Then the id is appended to the order and the map gains that one entry. Otherwise nothing changes |
| Home.SmartHome.RemoveDevice | smart_home.py:218-223 | returns true exactly when the id is present. The map loses that key only. The order loses that id only; see EraseAt |
| Home.SmartHome.GetDevice | smart_home.py:225-227 | returns a device exactly when the id is registered; the device returned has that id |
| Home.SmartHome.ListDevices | smart_home.py:229-231 | one status per registered device, in insertion order; entry i is the status of the device under the i-th id |
| Home.SmartHome.ControlDevice | smart_home.py:233-238 | an unknown id returns false and modifies nothing. Otherwise only that device changes: it is stamped, and its state and the result are those of its own command. The registry stays valid |
| Home.Select | smart_home.py:240-247 | the selection holds only stored devices that match the filter, and every device under the given keys that matches |
| Home.SelectUnderOwnId | smart_home.py:240-247 | when every device sits under its own id, each selected device is the one stored under its id among the keys |
| Home.SelectDistinct | smart_home.py:240-247 | over distinct ids with every device under its own id, no device is selected twice |
| Home.SelectAppend | smart_home.py:240-247 | selection distributes over concatenation of keys, so results follow insertion order |
| Home.AddAppendsToSelect | smart_home.py:211-247 | after adding a device under a new id, each filter returns its old result followed by the new device when it matches |
| Home.SelectAround | smart_home.py:240-247 | a filter's result over the ids splits into the part before position i, the entry at i, and the part after |
| Home.RemoveDropsFromSelect | smart_home.py:218-247 | after removing the id at position i, each filter returns the parts before and after that entry, concatenated; with SelectAround, exactly that one device is dropped and the rest keep their order |
| Home.SmartHome.DevicesByLocation | smart_home.py:240-242 | a device is in the result exactly when it is registered and its location is the one asked for. Each such device appears once, as the one stored under its id, and the result is no longer than the registry |
| Home.SmartHome.DevicesByType | smart_home.py:244-247 | a device is in the result exactly when it is registered and its class name is the one asked for. Each such device appears once, as the one stored under its id, and the result is no longer than the registry |
| Home.CountOnline | smart_home.py:254 | the online count is at most the number of keys, and equals it exactly when every device under them is online |
| Home.SmartHome.SystemStatus | smart_home.py:249-256 | carries the registry's name. total_devices equals the number of registered devices and of listed statuses. online_devices equals total_devices. The device list is `ListDevices()` |

## Left out

- `export_config` (smart_home.py:258-260) is JSON text formatting by a library call. It serialises `SystemStatus`.
- The `isoformat()` renderings of timestamps are not modelled. Times stay naturals.
- Wall-clock reads are arguments. The lock's second `datetime.now()` reading uses the same `now` as `last_updated`.
- Floating-point values are not modelled. Temperatures are `Param` values, with the defaults 25.0 and 22.0 as the integers 25 and 22.
- Devices.Device.ExecuteCommand: excludes two raising calls. One is a light's `turn_on` with a string `brightness`. The other is a light's `set_brightness` with a string `level` while the light is on. In the source both raise `TypeError` from `min`. For `turn_on` this happens after `last_updated` and `is_on = True` are already set, and that partial update is not modelled. A float in those places would be stored unrounded; floats are not modelled.
- Home.SmartHome.ControlDevice: excludes the same two raising calls, for the same reason.
- `is_online` is never set false in the source. `Device.Valid()` records it as always true. Outside code assigning the attribute is not modelled.
- The abstract base class machinery and `type(device).__name__` are not modelled. The class name is the constant `typeName`, and `Valid()` ties it to the kind of `state`.
- The truthiness test `if device:` in `control_device` is not modelled. A registered device object is always truthy.
- A caller can run a command directly on a device it has registered. The model proves that the registry stays valid only for commands sent through `ControlDevice`.
- The `__main__` demo and `example.py` are console scenarios and are not part of this model.
