/**
 * Client code: the scenarios of test_smart_home.py, checked against the
 * contracts of the registry and the devices alone.
 */
module Scenarios {
  import opened Wrappers
  import opened Commands
  import opened Devices
  import opened Home

  method LightScenario() {
    var light := new Device.Light("test_light_001", "Test Light", "Test Room", 0);
    var ok := light.ExecuteCommand("set_brightness", map["level" := PInt(75)], 1);
    assert !ok && light.state.brightness == 0;
    ok := light.ExecuteCommand("turn_on", map["brightness" := PInt(150)], 2);
    assert ok && light.state.isOn && light.state.brightness == 100;
    ok := light.ExecuteCommand("turn_on", map["brightness" := PInt(-5)], 3);
    assert light.state.brightness == 0;
    ok := light.ExecuteCommand("set_brightness", map["level" := PInt(75)], 4);
    assert ok && light.state.brightness == 75;
    ok := light.ExecuteCommand("dim", map[], 5);
    assert !ok && light.state.brightness == 75 && light.lastUpdated == 5;
    ok := light.ExecuteCommand("turn_off", map[], 6);
    assert ok && !light.state.isOn && light.state.brightness == 0;
  }

  method ThermostatScenario() {
    var thermostat := new Device.Thermostat("test_thermo_001", "Test Thermostat", "Test Room", 0);
    var ok := thermostat.ExecuteCommand("set_mode", map["mode" := PStr("invalid")], 1);
    assert !ok && thermostat.state.mode == "auto" && thermostat.state.isOn;
    ok := thermostat.ExecuteCommand("set_mode", map["mode" := PStr("off")], 2);
    assert ok && thermostat.state.mode == "off" && !thermostat.state.isOn;
    ok := thermostat.ExecuteCommand("set_temperature", map["temp" := PInt(25)], 3);
    assert ok && thermostat.state.targetTemp == PInt(25);
  }

  method DoorLockScenario() {
    var lock := new Device.DoorLock("test_lock_001", "Test Lock", "Test Door", 0);
    var ok := lock.ExecuteCommand("unlock", map[], 1);
    assert ok && !lock.state.isLocked && lock.state.lastAccess.Some?;
    ok := lock.ExecuteCommand("lock", map[], 2);
    assert ok && lock.state.isLocked && lock.state.lastAccess == Some(2);
  }

  method RegistryScenario() {
    var home := new SmartHome("Test Home");
    var light := new Device.Light("L1", "Test Light", "Room", 0);
    var added := home.AddDevice(light);
    assert added && home.ids == ["L1"];
    added := home.AddDevice(light);
    assert !added && |home.devices| == 1;
    var ok := home.ControlDevice("L1", "turn_on", map["brightness" := PInt(70), "color" := PStr("warm")], 1);
    assert ok && light.state.isOn && light.state.brightness == 70;
    ok := home.ControlDevice("missing", "turn_on", map[], 2);
    assert !ok;
    var removed := home.RemoveDevice("L1");
    assert removed && home.ids == [] && home.devices == map[];
  }

  /** A registry holding a light "L1" and a thermostat "T1", both in "Room". */
  method TwoDeviceHome() returns (home: SmartHome, light: Device, thermostat: Device)
    ensures fresh(home) && home.Valid() && home.name == "Test Home"
    ensures home.ids == ["L1", "T1"] && home.devices == map["L1" := light, "T1" := thermostat]
    ensures light != thermostat && light.typeName == "Light" && thermostat.typeName == "Thermostat"
    ensures light.location == "Room" && thermostat.location == "Room"
  {
    home := new SmartHome("Test Home");
    light := new Device.Light("L1", "Test Light", "Room", 0);
    thermostat := new Device.Thermostat("T1", "Test Thermostat", "Room", 0);
    var added := home.AddDevice(light);
    added := home.AddDevice(thermostat);
  }

  method LocationScenario() {
    var home, light, thermostat := TwoDeviceHome();
    assert home.devices["L1"] == light && home.devices["T1"] == thermostat;
    var inRoom := home.DevicesByLocation("Room");
    assert light in inRoom && thermostat in inRoom;
    assert |inRoom| == 2;
  }

  method TypeScenario() {
    var home, light, thermostat := TwoDeviceHome();
    assert home.devices["L1"] == light && home.devices["T1"] == thermostat;
    var lights := home.DevicesByType("Light");
    assert light in lights && thermostat !in lights;
    forall d | d in lights ensures d == light {
      assert d.deviceId in ["L1", "T1"] && home.devices[d.deviceId] == d;
    }
    DistinctCard(lights);
    assert (set d | d in lights) == {light};
    assert |lights| == 1;
  }

  method StatusScenario() {
    var home, light, thermostat := TwoDeviceHome();
    var status := home.SystemStatus();
    assert status.name == "Test Home" && status.totalDevices == 2 && status.onlineDevices == 2;
  }
}
