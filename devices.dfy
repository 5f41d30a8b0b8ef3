/**
 A device with an encapsulated battery, and its smartphone specialisation.

 One class stands for both: `kind` records whether the object was built as a
 generic device or as a smartphone (with its phone number), and `Use`, the
 operation a smartphone overrides, dispatches on it. Every public mutating
 method (`Charge`, `Use`, `InstallApp`, `Call`) keeps `Valid()` and moves the
 object's state by one `DeviceSpec.Step`; the internal `Drain` keeps `Valid()`
 and has no `Op` of its own.
 */
module Devices {
  import opened DeviceSpec

  class Device {
    const brand: string
    const model: string
    const kind: Kind
    /** The battery level in per cent; changed only by the methods below. */
    var battery: int
    /** The installed apps, in installation order (always empty on a generic device). */
    var apps: seq<string>

    ghost function Snapshot(): State
      reads this
    {
      State(battery, apps)
    }

    ghost predicate Valid()
      reads this
    {
      Inv(kind, Snapshot())
    }

    /** A generic device; the initial level is clamped into [0, 100]. */
    constructor (brand: string, model: string, batteryLevel: int := 100)
      ensures Valid()
      ensures this.brand == brand && this.model == model && kind == Generic
      ensures battery == Clamp(batteryLevel)
      ensures Snapshot() == Initial(batteryLevel)
    {
      this.brand := brand;
      this.model := model;
      kind := Generic;
      battery := Clamp(batteryLevel);
      apps := [];
    }

    /** A smartphone: a device that also has a number and starts with no apps. */
    constructor Smartphone(brand: string, model: string, phoneNumber: string, batteryLevel: int := 100)
      ensures Valid()
      ensures this.brand == brand && this.model == model && kind == Phone(phoneNumber)
      ensures battery == Clamp(batteryLevel) && apps == []
      ensures Snapshot() == Initial(batteryLevel)
    {
      this.brand := brand;
      this.model := model;
      kind := Phone(phoneNumber);
      battery := Clamp(batteryLevel);
      apps := [];
    }

    /** The current battery level, always within [0, 100]. */
    function BatteryLevel(): (r: int)
      reads this
      requires Valid()
      ensures 0 <= r <= MaxBattery
      ensures r == Snapshot().battery
    {
      battery
    }

    /** Adds `amount` and clamps into [0, 100]; a negative amount lowers the level. */
    method Charge(amount: int)
      requires Valid()
      modifies this
      ensures Valid()
      ensures battery == Clamp(old(battery) + amount) && apps == old(apps)
      ensures Snapshot() == Step(kind, old(Snapshot()), Op.Charge(amount))
    {
      battery := Clamp(battery + amount);
    }

    /** Lowers the level by `amount`, floored at 0. Internal: every caller passes
        a non-negative amount, which is what keeps the level at most 100. */
    method Drain(amount: int)
      requires Valid() && amount >= 0
      modifies this
      ensures Valid()
      ensures battery == Drained(old(battery), amount) && apps == old(apps)
      ensures battery <= old(battery)
    {
      battery := Max(0, battery - amount);
    }

    /** Active use: one per cent per 10 minutes on a generic device, per 5 on a smartphone. */
    method Use(minutes: int)
      requires Valid()
      modifies this
      ensures Valid()
      ensures battery == Drained(old(battery), UseDrain(kind, minutes)) && apps == old(apps)
      ensures Snapshot() == Step(kind, old(Snapshot()), Op.Use(minutes))
    {
      match kind {
        case Generic =>
          var drain := Max(0, minutes / 10);
          Drain(drain);
        case Phone(_) =>
          var drain := Max(0, minutes / 5);
          Drain(drain);
      }
    }

    /** Appends `name` and drains 1 per cent, unless the app is already installed. */
    method InstallApp(name: string)
      requires Valid() && kind.Phone?
      modifies this
      ensures Valid()
      ensures name in old(apps) ==> apps == old(apps) && battery == old(battery)
      ensures name !in old(apps) ==>
        apps == old(apps) + [name] && battery == Drained(old(battery), 1)
      ensures Snapshot() == Step(kind, old(Snapshot()), Op.InstallApp(name))
    {
      if name !in apps {
        apps := apps + [name];
        Drain(1);
      }
    }

    /** A call of `minutes` minutes drains one per cent per minute, at least one;
        the number is neither kept nor checked. */
    method Call(number: string, minutes: int := 1)
      requires Valid() && kind.Phone?
      modifies this
      ensures Valid()
      ensures battery == Drained(old(battery), CallDrain(minutes)) && apps == old(apps)
      ensures Snapshot() == Step(kind, old(Snapshot()), Op.Call(number, minutes))
    {
      var drain := Max(1, minutes);
      Drain(drain);
    }
  }

  /** The program's first demonstration: a tablet used and charged, a phone
      given two apps, used and called, and a second phone given one app. The
      results are the levels and app lists the demonstration displays at the end. */
  method DemoActivity1() returns (d1Level: int, s1Level: int, s1Apps: seq<string>,
                                  s2Level: int, s2Apps: seq<string>)
    ensures d1Level == 83
    ensures s1Level == 54 && s1Apps == ["Maps", "Chat"]
    ensures s2Level == 99 && s2Apps == ["Music"]
  {
    var d1 := new Device("Acme", "Tab-10", batteryLevel := 75);
    var s1 := new Device.Smartphone("Pear", "iFruit 14", phoneNumber := "+266-5012-3456", batteryLevel := 65);
    var s2 := new Device.Smartphone("Samesung", "Galaxy S42", phoneNumber := "+266-5555-0000");

    d1.Use(25);
    d1.Charge(10);
    d1Level := d1.BatteryLevel();

    s1.InstallApp("Maps");
    s1.InstallApp("Chat");
    s1.Use(30);
    s1.Call("+266-7777-8888", minutes := 3);
    s1Level, s1Apps := s1.BatteryLevel(), s1.apps;

    s2.InstallApp("Music");
    s2Level, s2Apps := s2.BatteryLevel(), s2.apps;
  }
}
