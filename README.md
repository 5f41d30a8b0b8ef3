# Device and Smartphone battery model

A Dafny model of the object-oriented classroom program `oop_assignment.py`.

The program has two parts. The first is a `Device` with an encapsulated battery
percentage. Its `Smartphone` subclass adds a phone number and an ordered list of
installed apps. The second is a `Vehicle` abstraction whose three variants,
`Car`, `Bike` and `Plane`, each describe how they move.

- `device_spec.dfy` (module `DeviceSpec`) holds the behaviour as values.
  `Clamp`, `Drained`, `UseDrain` and `CallDrain` are the per-operation
  formulas. A `State` is a battery level and an app list. One public operation
  is an `Op`; `Step` applies one and `Run` applies a sequence. `Inv` is the
  invariant: battery in [0, 100], no duplicate apps, no apps on a generic
  device. The lemmas cover single operations and whole sequences of them.
- `devices.dfy` (module `Devices`) holds the class `Device`. Its fields
  `battery` and `apps` are overwritten in place, as in the program. The class
  serves both Python classes. `kind` is `Generic` for a plain device and
  `Phone(number)` for a smartphone, and the overridden `use` dispatches on it.
  Every method keeps `Valid()` and states its new fields. Each public mutating
  method (`Charge`, `Use`, `InstallApp`, `Call`) also states that its new
  `Snapshot()` is one `Step` from the old one, so every lemma about `Step` and
  `Run` applies to the objects. The internal `Drain` is the exception: it has no
  `Op` of its own and is specified by `Drained` directly.
- `vehicles.dfy` (module `Vehicles`) holds `Vehicle` as a three-variant
  datatype with a `Move` function.

Python's `//` with divisor 10 or 5 floors. Dafny's `/` with a positive divisor
gives the same result, including for negative minutes. The program's integers
are unbounded, and so are Dafny's `int`s.

For a negative duration, `max(0, …)` turns the quotient into a drain of 0.
`_drain` assigns `max(0, battery - amount)` to the battery, and `Drained` is
that value.

## Model

| member | source | states |
|---|---|---|
| `DeviceSpec.Clamp` | oop_assignment.py:31 | the result lies in [0, 100], equals the input when the input is in range, and is the level in [0, 100] nearest to the input |
| `DeviceSpec.Initial` | oop_assignment.py:27-31 | a new device's level is the requested level when that is in range, 100 above it and 0 below it; there are no apps |
| `DeviceSpec.InitialKeepsInvariant` | oop_assignment.py:61-64 | a newly built device or smartphone satisfies the invariant |
| `DeviceSpec.Drained` | oop_assignment.py:42-44 | draining lowers the level by exactly the amount, or to 0 when the amount exceeds it; a non-negative amount never raises the level and keeps it in range; a negative amount would raise it |
| `DeviceSpec.UseDrain` | oop_assignment.py:46-49 | use drains the number of whole periods in the minutes (10 for a device, 5 for a smartphone) and nothing for negative or short durations |
| `DeviceSpec.UsePeriod` | oop_assignment.py:84-87 | the period is 5 minutes exactly for a smartphone and 10 otherwise |
| `DeviceSpec.PhoneDrainsTwiceAsFast` | oop_assignment.py:83-87 | for equal minutes, a smartphone drains twice what a device drains, or that plus one; negative minutes drain nothing on either |
| `DeviceSpec.CallDrain` | oop_assignment.py:72-75 | a call drains at least 1 and at least the minutes, exactly the minutes from 1 upward, and 1 for zero or negative minutes |
| `DeviceSpec.CallDrainsAtLeastOne` | oop_assignment.py:72-75 | a call leaves the apps alone and lowers a non-empty battery by at least 1; an empty battery stays at 0 |
| `DeviceSpec.InstallAppEffect` | oop_assignment.py:66-70 | an absent app is appended and costs exactly 1 (floored at 0); a present app changes nothing; the new list holds the app, keeps the old list as a prefix, holds nothing else new and has no duplicates |
| `DeviceSpec.InstallAppIdempotent` | oop_assignment.py:66-70 | installing the same app twice gives the same state as installing it once |
| `DeviceSpec.StepKeepsInvariant` | oop_assignment.py:38-87 | each public operation keeps the invariant and keeps the old app list as a prefix |
| `DeviceSpec.RunKeepsInvariant` | oop_assignment.py:25-87 | any sequence of operations keeps the invariant, and the app list only grows at its end |
| `DeviceSpec.RunWithoutChargeNeverRaises` | oop_assignment.py:42-87 | with no charge among them, any sequence of operations leaves the level at or below where it started |
| `Devices.Device.constructor` | oop_assignment.py:27-31 | stores brand and model, makes a generic device, and sets the level to the clamped initial level (100 by default) |
| `Devices.Device.Smartphone` | oop_assignment.py:61-64 | stores brand, model and number, sets the clamped level, and starts with an empty app list |
| `Devices.Device.BatteryLevel` | oop_assignment.py:33-36 | the read-only level is always within [0, 100] |
| `Devices.Device.Charge` | oop_assignment.py:38-40 | the new level is the old level plus the amount, clamped, for negative amounts too; the apps are unchanged |
| `Devices.Device.Drain` | oop_assignment.py:42-44 | for a non-negative amount the level drops by the amount, floored at 0, and never rises; the apps are unchanged |
| `Devices.Device.Use` | oop_assignment.py:84-87 | the level drops by the use drain of the object's own kind (the smartphone's replaces the base formula), floored at 0; the apps are unchanged |
| `Devices.Device.InstallApp` | oop_assignment.py:66-70 | an absent app is appended and the level drained by 1; a present app leaves apps and level unchanged; the invariant is kept |
| `Devices.Device.Call` | oop_assignment.py:72-75 | the level drops by `max(1, minutes)` (one minute by default), floored at 0; the number is not stored; the apps are unchanged |
| `Devices.DemoActivity1` | oop_assignment.py:120-142 | replaying the demonstration's calls through the class contracts leaves the tablet at 83, the first phone at 54 with apps Maps then Chat, and the second phone at 99 with Music |
| `Vehicles.Vehicle.Move` | oop_assignment.py:101-113 | every variant has a non-empty description of its own |
| `Vehicles.MoveIdentifiesVariant` | oop_assignment.py:94-113 | two vehicles give the same description exactly when they are the same variant, so the three strings are pairwise distinct |

## Left out

- `specs` and `__str__` (oop_assignment.py:51-56, 78-81): f-string formatting with emoji and integer-to-text conversion. The only behaviour they carry is that a smartphone's description also shows its number and app count, and that is not modelled.
- Printing in `demo_activity_1`, and all of `demo_activity_2` and the `__main__` block (oop_assignment.py:120-153): they only write text to standard output. `Devices.DemoActivity1` replays the calls of `demo_activity_1` and returns the final levels and app lists instead of printing them.
- `int(...)` coercions (oop_assignment.py:31, 40, 44): arguments are modelled as `int`. Python's conversion of floats and strings is not modelled.
- Inheritance, `ABC` and `@abstractmethod` (oop_assignment.py:59, 94-98) are language machinery. A `kind` field on one class stands for the Device/Smartphone subclassing, and a datatype with one case per variant stands for the abstract `Vehicle`.
- The "protected" convention on `_drain` is not enforced. `Devices.Device.Drain` is callable, and it requires a non-negative amount, which is what every caller in the program passes (oop_assignment.py:48, 70, 74, 86).
- Installing an app and placing a call require a smartphone, because a plain `Device` has no such methods in the program.
