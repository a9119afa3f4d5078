/**
 * The `SmartHome` controller: an insertion-ordered registry from device id to
 * device, with lookup, command forwarding, filters and a status summary.
 *
 * Python's dict is modelled as `ids` (the keys in insertion order) and
 * `devices` (the key-to-object map); `Indexed()` keeps the two in step.
 */
module Home {
  import opened Wrappers
  import opened Commands
  import opened Devices

  /** No entry occurs twice. */
  predicate Distinct<T(==)>(s: seq<T>)
  {
    forall i, j :: 0 <= i < j < |s| ==> s[i] != s[j]
  }

  /** `s` without `x`, the other keys in their original order. */
  function Erase(s: seq<string>, x: string): (r: seq<string>)
    ensures forall y :: y in r <==> y in s && y != x
    ensures Distinct(s) ==> Distinct(r)
    ensures |r| <= |s|
    decreases |s|
  {
    if s == [] then []
    else if s[0] == x then Erase(s[1..], x)
    else
      var rest := Erase(s[1..], x);
      assert Distinct(s) ==> Distinct(s[1..]) && s[0] !in rest;
      [s[0]] + rest
  }

  /** Erasing a key that is absent changes nothing. */
  lemma {:induction false} EraseAbsent(s: seq<string>, x: string)
    requires x !in s
    ensures Erase(s, x) == s
    decreases |s|
  {
    if s != [] {
      EraseAbsent(s[1..], x);
      assert [s[0]] + s[1..] == s;
    }
  }

  /** Erasing a key of a duplicate-free sequence cuts out exactly its position. */
  lemma {:induction false} EraseAt(s: seq<string>, i: nat)
    requires Distinct(s) && i < |s|
    ensures Erase(s, s[i]) == s[..i] + s[i + 1..]
    ensures |Erase(s, s[i])| == |s| - 1
    decreases i
  {
    if i == 0 {
      EraseAbsent(s[1..], s[0]);
    } else {
      assert s[1..][i - 1] == s[i];
      EraseAt(s[1..], i - 1);
      assert s[1..][..i - 1] == s[1..i];
      assert [s[0]] + s[1..i] == s[..i];
      assert s[1..][i..] == s[i + 1..];
    }
  }

  /** Erasing works entry by entry: it distributes over concatenation. */
  lemma {:induction false} EraseAppend(a: seq<string>, b: seq<string>, x: string)
    ensures Erase(a + b, x) == Erase(a, x) + Erase(b, x)
    decreases |a|
  {
    if a == [] {
      assert a + b == b;
    } else {
      assert (a + b)[0] == a[0] && (a + b)[1..] == a[1..] + b;
      EraseAppend(a[1..], b, x);
    }
  }

  /** Adding a device under a fresh id and then removing that id restores the registry. */
  lemma AddThenRemoveRestores(ks: seq<string>, m: map<string, Device>, d: Device)
    requires d.deviceId !in ks && d.deviceId !in m
    ensures Erase(ks + [d.deviceId], d.deviceId) == ks
    ensures m[d.deviceId := d] - {d.deviceId} == m
  {
    EraseAppend(ks, [d.deviceId], d.deviceId);
    EraseAbsent(ks, d.deviceId);
    assert Erase([d.deviceId], d.deviceId) == [];
  }

  /** A duplicate-free sequence has as many distinct elements as entries. */
  lemma {:induction false} DistinctCard<T>(s: seq<T>)
    requires Distinct(s)
    ensures |set x | x in s| == |s|
    decreases |s|
  {
    if s != [] {
      var rest := s[1..];
      assert Distinct(rest) by {
        forall i, j | 0 <= i < j < |rest| ensures rest[i] != rest[j] {
          assert rest[i] == s[i + 1] && rest[j] == s[j + 1];
        }
      }
      DistinctCard(rest);
      assert (set x | x in s) == {s[0]} + (set x | x in rest);
      assert s[0] !in rest;
    }
  }

  /** A filter of `get_devices_by_location` or `get_devices_by_type`. */
  datatype Query = AtLocation(location: string) | OfType(typeName: string)

  predicate Matches(d: Device, q: Query)
  {
    match q
    case AtLocation(location) => d.location == location
    case OfType(typeName) => d.typeName == typeName
  }

  /** The devices stored under `ks` that match `q`, in the order of `ks`. */
  function Select(ks: seq<string>, m: map<string, Device>, q: Query): (r: seq<Device>)
    requires forall k :: k in ks ==> k in m
    ensures |r| <= |ks|
    ensures forall d :: d in r ==> d in m.Values && Matches(d, q)
    ensures forall k :: k in ks && Matches(m[k], q) ==> m[k] in r
    decreases |ks|
  {
    if ks == [] then []
    else
      var rest := Select(ks[1..], m, q);
      if Matches(m[ks[0]], q) then [m[ks[0]]] + rest else rest
  }

  /** When every device sits under its own id, each selected device is found under its id among `ks`. */
  lemma {:induction false} SelectUnderOwnId(ks: seq<string>, m: map<string, Device>, q: Query)
    requires forall k :: k in ks ==> k in m && m[k].deviceId == k
    ensures forall d :: d in Select(ks, m, q) ==> d.deviceId in ks && m[d.deviceId] == d
    decreases |ks|
  {
    if ks != [] {
      SelectUnderOwnId(ks[1..], m, q);
    }
  }

  /** Over distinct ids, each device under its own id, every matching device is selected once. */
  lemma {:induction false} SelectDistinct(ks: seq<string>, m: map<string, Device>, q: Query)
    requires Distinct(ks)
    requires forall k :: k in ks ==> k in m && m[k].deviceId == k
    ensures Distinct(Select(ks, m, q))
    decreases |ks|
  {
    if ks != [] {
      var rest := ks[1..];
      assert Distinct(rest) by {
        forall i, j | 0 <= i < j < |rest| ensures rest[i] != rest[j] {
          assert rest[i] == ks[i + 1] && rest[j] == ks[j + 1];
        }
      }
      SelectDistinct(rest, m, q);
      SelectUnderOwnId(rest, m, q);
      assert ks[0] !in rest;
    }
  }

  /** Selection works entry by entry: it distributes over concatenation (order is kept). */
  lemma {:induction false} SelectAppend(a: seq<string>, b: seq<string>, m: map<string, Device>, q: Query)
    requires forall k :: k in a + b ==> k in m
    ensures Select(a + b, m, q) == Select(a, m, q) + Select(b, m, q)
    decreases |a|
  {
    if a == [] {
      assert a + b == b;
    } else {
      var ab := a + b;
      assert ab[0] == a[0] && ab[1..] == a[1..] + b;
      SelectAppend(a[1..], b, m, q);
      var head := if Matches(m[a[0]], q) then [m[a[0]]] else [];
      calc {
        Select(ab, m, q);
        head + Select(a[1..] + b, m, q);
        head + (Select(a[1..], m, q) + Select(b, m, q));
        (head + Select(a[1..], m, q)) + Select(b, m, q);
      }
    }
  }

  /** Selection only looks at the entries under `ks`. */
  lemma {:induction false} SelectAgrees(ks: seq<string>, m1: map<string, Device>, m2: map<string, Device>, q: Query)
    requires forall k :: k in ks ==> k in m1 && k in m2 && m1[k] == m2[k]
    ensures Select(ks, m1, q) == Select(ks, m2, q)
    decreases |ks|
  {
    if ks != [] {
      SelectAgrees(ks[1..], m1, m2, q);
    }
  }

  /** Adding a device under a fresh key appends it to every filter it matches. */
  lemma AddAppendsToSelect(ks: seq<string>, m: map<string, Device>, d: Device, q: Query)
    requires forall k :: k in ks ==> k in m
    requires d.deviceId !in ks
    ensures Select(ks + [d.deviceId], m[d.deviceId := d], q) ==
      Select(ks, m, q) + (if Matches(d, q) then [d] else [])
  {
    var m' := m[d.deviceId := d];
    SelectAppend(ks, [d.deviceId], m', q);
    SelectAgrees(ks, m', m, q);
  }

  /** The selection over `ks` splits around position `i`. */
  lemma SelectAround(ks: seq<string>, m: map<string, Device>, i: nat, q: Query)
    requires i < |ks|
    requires forall k :: k in ks ==> k in m
    ensures Select(ks, m, q) ==
      Select(ks[..i], m, q) + Select([ks[i]], m, q) + Select(ks[i + 1..], m, q)
  {
    assert ks == ks[..i] + [ks[i]] + ks[i + 1..];
    SelectAppend(ks[..i] + [ks[i]], ks[i + 1..], m, q);
    SelectAppend(ks[..i], [ks[i]], m, q);
  }

  /**
   * Removing the key at position `i` drops exactly its device from every
   * filter; with SelectAround, the other devices keep their order.
   */
  lemma RemoveDropsFromSelect(ks: seq<string>, m: map<string, Device>, i: nat, q: Query)
    requires Distinct(ks) && i < |ks|
    requires forall k :: k in ks ==> k in m
    ensures Select(Erase(ks, ks[i]), m - {ks[i]}, q) ==
      Select(ks[..i], m, q) + Select(ks[i + 1..], m, q)
  {
    var x := ks[i];
    EraseAt(ks, i);
    var rest := ks[..i] + ks[i + 1..];
    forall k | k in rest ensures k in m - {x} && (m - {x})[k] == m[k] {
      assert k != x;
    }
    SelectAgrees(rest, m - {x}, m, q);
    SelectAppend(ks[..i], ks[i + 1..], m, q);
  }

  /** The number of devices under `ks` that are online. */
  function CountOnline(ks: seq<string>, m: map<string, Device>): (r: nat)
    requires forall k :: k in ks ==> k in m
    reads m.Values
    ensures r <= |ks|
    ensures r == |ks| <==> forall k :: k in ks ==> m[k].isOnline
    decreases |ks|
  {
    if ks == [] then 0
    else (if m[ks[0]].isOnline then 1 else 0) + CountOnline(ks[1..], m)
  }

  /** `get_system_status`. */
  datatype SystemStatusRecord = SystemStatusRecord(
    name: string, totalDevices: nat, onlineDevices: nat, devices: seq<StatusRecord>)

  class SmartHome {
    const name: string
    /** The registry's keys, in insertion order. */
    var ids: seq<string>
    var devices: map<string, Device>

    /** The keys are distinct and are the map's keys; each device is stored under its own id. */
    ghost predicate Indexed()
      reads this
    {
      Distinct(ids) &&
      (forall k :: k in ids <==> k in devices) &&
      (forall k :: k in devices ==> devices[k].deviceId == k)
    }

    ghost predicate Valid()
      reads this, devices.Values
    {
      Indexed() && forall k :: k in devices ==> devices[k].Valid()
    }

    constructor(name: string := "My Smart Home")
      ensures this.name == name && ids == [] && devices == map[] && Valid()
    {
      this.name := name;
      ids, devices := [], map[];
    }

    /** The registry holds as many devices as it lists ids. */
    lemma KeysCount()
      requires Indexed()
      ensures |devices| == |ids|
    {
      assert devices.Keys == set k | k in ids;
      DistinctCard(ids);
    }

    /** Every stored device is stored under its own id. */
    lemma StoredUnderOwnId()
      requires Indexed()
      ensures forall d :: d in devices.Values ==> d.deviceId in ids && devices[d.deviceId] == d
    {
      forall d | d in devices.Values
        ensures d.deviceId in ids && devices[d.deviceId] == d
      {
        var k :| k in devices && devices[k] == d;
      }
    }

    /** Stores the device unless its id is already taken. */
    method AddDevice(device: Device) returns (ok: bool)
      requires Valid() && device.Valid()
      modifies this
      ensures Valid()
      ensures ok <==> device.deviceId !in old(devices)
      ensures ok ==> ids == old(ids) + [device.deviceId] && devices == old(devices)[device.deviceId := device]
      ensures !ok ==> ids == old(ids) && devices == old(devices)
    {
      if device.deviceId !in devices {
        devices := devices[device.deviceId := device];
        ids := ids + [device.deviceId];
        ok := true;
      } else {
        ok := false;
      }
    }

    /** Deletes the entry for `deviceId`, if there is one. */
    method RemoveDevice(deviceId: string) returns (ok: bool)
      requires Valid()
      modifies this
      ensures Valid()
      ensures ok <==> deviceId in old(devices)
      ensures ids == Erase(old(ids), deviceId) && devices == old(devices) - {deviceId}
    {
      if deviceId in devices {
        devices := devices - {deviceId};
        ids := Erase(ids, deviceId);
        ok := true;
      } else {
        EraseAbsent(ids, deviceId);
        ok := false;
      }
    }

    function GetDevice(deviceId: string): (r: Option<Device>)
      requires Indexed()
      reads this
      ensures r.Some? <==> deviceId in ids
      ensures r.Some? ==> r.value in devices.Values && r.value.deviceId == deviceId
    {
      if deviceId in devices then Some(devices[deviceId]) else None
    }

    /** Every device's status, in registry order. */
    function ListDevices(): (r: seq<StatusRecord>)
      requires Valid()
      reads this, devices.Values
      ensures |r| == |ids| == |devices|
      ensures forall i :: 0 <= i < |r| ==> r[i].info.deviceId == ids[i] && r[i] == devices[ids[i]].Status()
    {
      KeysCount();
      seq(|ids|, i requires 0 <= i < |ids| && ids[i] in devices && devices[ids[i]].Valid()
                   reads this, devices.Values => devices[ids[i]].Status())
    }

    /**
     * Forwards the command to the device stored under `deviceId`; an unknown
     * id fails and touches nothing.
     */
    method ControlDevice(deviceId: string, command: string, kwargs: Kwargs, now: nat) returns (ok: bool)
      requires Valid()
      requires deviceId in devices ==> ArgsFit(devices[deviceId].state, command, kwargs)
      modifies if deviceId in devices then {devices[deviceId]} else {}
      ensures Valid()
      ensures deviceId !in devices ==> !ok
      ensures deviceId in devices ==>
        devices[deviceId].lastUpdated == now &&
        Outcome(devices[deviceId].state, ok) == Step(old(devices[deviceId].state), command, kwargs, now)
    {
      var found := GetDevice(deviceId);
      match found
      case None =>
        ok := false;
      case Some(device) =>
        ok := device.ExecuteCommand(command, kwargs, now);
        forall k | k in devices ensures devices[k].Valid() {
          if k != deviceId {
            assert devices[k].deviceId != device.deviceId;
          }
        }
    }

    /** `get_devices_by_location`: the devices at `location`, in registry order. */
    function DevicesByLocation(location: string): (r: seq<Device>)
      requires Indexed()
      reads this
      ensures |r| <= |ids| && Distinct(r)
      ensures forall d :: d in r ==> d.deviceId in ids && devices[d.deviceId] == d
      ensures forall d :: d in r ==> d in devices.Values && d.location == location
      ensures forall d :: d in devices.Values && d.location == location ==> d in r
    {
      StoredUnderOwnId();
      SelectUnderOwnId(ids, devices, AtLocation(location));
      SelectDistinct(ids, devices, AtLocation(location));
      Select(ids, devices, AtLocation(location))
    }

    /** `get_devices_by_type`: the devices of class `typeName`, in registry order. */
    function DevicesByType(typeName: string): (r: seq<Device>)
      requires Indexed()
      reads this
      ensures |r| <= |ids| && Distinct(r)
      ensures forall d :: d in r ==> d.deviceId in ids && devices[d.deviceId] == d
      ensures forall d :: d in r ==> d in devices.Values && d.typeName == typeName
      ensures forall d :: d in devices.Values && d.typeName == typeName ==> d in r
    {
      StoredUnderOwnId();
      SelectUnderOwnId(ids, devices, OfType(typeName));
      SelectDistinct(ids, devices, OfType(typeName));
      Select(ids, devices, OfType(typeName))
    }

    /** `get_system_status`: every device counts as online. */
    function SystemStatus(): (r: SystemStatusRecord)
      requires Valid()
      reads this, devices.Values
      ensures r.name == name
      ensures r.totalDevices == |devices| == |r.devices|
      ensures r.onlineDevices == r.totalDevices
      ensures r.devices == ListDevices()
    {
      KeysCount();
      SystemStatusRecord(name, |devices|, CountOnline(ids, devices), ListDevices())
    }
  }
}
