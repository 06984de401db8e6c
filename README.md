# Electric motorcycle dashboard — a Dafny model of its state logic

The program simulates the dashboard of an electric motorcycle. A `Battery`
holds a raw capacity between 30 and 70, a percentage level derived from it,
a temperature and a fan flag. Two background loops change it: one lowers the
capacity by one every four seconds until it reaches the floor, the other draws
a new temperature in 20..80 every three seconds and switches the fan on above
50. A `MainMenu` holds the vehicle state (power flag, turn signal, speed) and
changes it one key at a time. Two foreground loops share a `key` and an
`exitProgram` flag: the input loop stores each key read and raises the flag on
`'0'`; the display loop applies the pending key, clears it, and raises the
flag when the battery reads empty.

The model has three modules, one per component:

- `BatteryState` (battery.dfy): the class `Battery` with the invariant
  `Valid()` (bounds 30/70, capacity in range, level equal to the formula
  applied to capacity, temperature in 20..80, fan equal to `temperature > 50`).
  The level formula (`LevelOf`, with C++ truncating division `TruncDiv`) and
  the decay step (`DecayStep`, `DecayN`) are functions with lemmas about them.
  `DecayTick` and `Resample` are the bodies of the two background loops.
- `VehicleMenu` (main_menu.dfy): the transition function `Execute` on
  `Vehicle` values, its fold `Run` over a key sequence, lemmas about both, and
  the class `MainMenu` whose `ExecuteMenu` updates its fields through the
  setters and is proved to follow `Execute`.
- `ControlLoop` (dashboard.dfy): the class `Dashboard` with the shared `key`
  and `exitProgram`, one pass of the display loop (`DisplayTick`), one pass of
  the input loop (`InputTick`), and `RunSchedule`, an arbitrary interleaving
  of passes of all four loops, proved to follow the value-level fold `Sched` of the
  one-pass function `StepF`.

Random draws become parameters whose ranges are preconditions. The threads
become atomic steps: the model lets the loops interleave only between whole
passes.

## Model

| member | source | states |
|---|---|---|
| `BatteryState.TruncDiv` | electricity_motorcycle.cpp:131 | C++ integer division; on a non-negative dividend and positive divisor it agrees with mathematical floor division |
| `BatteryState.TruncDivTruncates` | electricity_motorcycle.cpp:131 | for every sign of dividend and divisor, the remainder left by `TruncDiv` is smaller than the divisor in absolute value and has the sign of the dividend: the quotient is truncated toward zero, as C++ division is |
| `BatteryState.LevelRange` | electricity_motorcycle.cpp:130-132 | for min < max and capacity in [min, max] the level lies in [0, 100]; it is 0 exactly when (c - min) * 100 < max - min; it is 0 at min and 100 at max |
| `BatteryState.EmptyIffAtFloor` | electricity_motorcycle.cpp:48-49 | with the bounds 30 and 70, level 0 holds exactly when capacity is 30 |
| `BatteryState.LevelExamples` | electricity_motorcycle.cpp:131 | capacity 70 reads 100 and capacity 69 reads 97 |
| `BatteryState.DecayNExact` | electricity_motorcycle.cpp:93-96 | from capacity c >= min, n decay passes leave exactly max(min, c - n) |
| `BatteryState.DecayNMonotone` | electricity_motorcycle.cpp:93-96 | the capacity under decay stays at or above the floor, never exceeds its start, and is non-increasing in the number of passes |
| `BatteryState.DrainsAfterExactly` | electricity_motorcycle.cpp:93-96 | from a capacity in [30, 70], the level is 0 after n passes if and only if n >= c - 30; from then on the capacity stays 30; the capacity stays in [30, 70] throughout |
| `BatteryState.Battery.constructor` | electricity_motorcycle.cpp:47-55 | the new battery holds the drawn capacity and temperature and satisfies the invariant: level derived from capacity, fan equal to temperature > 50, level in [0, 100] |
| `BatteryState.Battery.SetBatteryLevel` | electricity_motorcycle.cpp:130-132 | only the level changes; it becomes `LevelOf(min, max, current)`, the truncated quotient (current - min) * 100 / (max - min) for any bounds with max != min, a percentage in [0, 100] when current is in [min, max] |
| `BatteryState.Battery.SetFanMode` | electricity_motorcycle.cpp:224-230 | only the fan flag changes; it is on if and only if the given temperature is above 50 |
| `BatteryState.Battery.GetBatteryLevel` | electricity_motorcycle.cpp:143-145 | returns the level; under the invariant it lies in [0, 100] and is 0 exactly when capacity is at the floor |
| `BatteryState.Battery.GetBatteryTemperature` | electricity_motorcycle.cpp:156-158 | returns the temperature; under the invariant it lies in [20, 80] |
| `BatteryState.Battery.GetCurrentBatteryCapacity` | electricity_motorcycle.cpp:209-211 | returns the capacity; under the invariant it lies in [30, 70] |
| `BatteryState.Battery.GetFanMode` | electricity_motorcycle.cpp:241-243 | returns the fan flag; under the invariant it is on exactly when the temperature is above 50 |
| `BatteryState.Battery.DecayTick` | electricity_motorcycle.cpp:92-97 | keeps the invariant; above the floor the capacity drops by exactly one and the level is recomputed; at the floor nothing changes; temperature and fan are untouched |
| `BatteryState.Battery.Resample` | electricity_motorcycle.cpp:175-178 | keeps the invariant; the temperature becomes the draw, the fan is on exactly when it is above 50, capacity and level are untouched |
| `VehicleMenu.PowerKeys` | electricity_motorcycle.cpp:496-503 | '1' sets the power flag and '0' clears it; neither changes signal or speed |
| `VehicleMenu.OffIgnoresKeys` | electricity_motorcycle.cpp:505-530 | when the power flag is off after the power step, every key leaves signal and speed unchanged |
| `VehicleMenu.SignalKeys` | electricity_motorcycle.cpp:508-519 | while on, 'K', 'M' and 'O' set the signal to LEFT, RIGHT and OFF and leave the speed alone |
| `VehicleMenu.SpeedKeys` | electricity_motorcycle.cpp:520-529 | while on, 'H' adds one to the speed and 'P' subtracts one, with no clamp, leaving the signal alone |
| `VehicleMenu.OtherKeysNoop` | electricity_motorcycle.cpp:495-531 | a key other than '0', '1', 'K', 'M', 'O', 'H', 'P' (the blank included) changes nothing |
| `VehicleMenu.RunWhileOff` | electricity_motorcycle.cpp:505 | from a powered-off state, a key sequence without '1' leaves the whole state unchanged |
| `VehicleMenu.RunSpeed` | electricity_motorcycle.cpp:520-529 | from a powered-on state, a key sequence without '0' keeps the power on and moves the speed by the number of 'H' minus the number of 'P' |
| `VehicleMenu.RunSignal` | electricity_motorcycle.cpp:508-519 | from a powered-on state, a key sequence without '0' ends with the signal of its last signal key (last write wins), or the old signal if it has none |
| `VehicleMenu.SpeedUpThreeTimes` | electricity_motorcycle.cpp:495-531 | from the initial state, '1' then 'H' three times gives power on, signal OFF, speed 53 |
| `VehicleMenu.LeftRightOffEndsOff` | electricity_motorcycle.cpp:508-519 | while on, 'K', 'M', 'O' in order end with signal OFF and nothing else changed |
| `VehicleMenu.MainMenu.constructor` | electricity_motorcycle.cpp:254-258 | signal OFF, power off, speed 50, and a fresh valid battery built from the two draws |
| `VehicleMenu.MainMenu.SetSignal` | electricity_motorcycle.cpp:350-352 | only the signal changes, to the given value |
| `VehicleMenu.MainMenu.GetSignal` | electricity_motorcycle.cpp:363-365 | returns the signal |
| `VehicleMenu.MainMenu.SetStartUp` | electricity_motorcycle.cpp:376-378 | only the power flag changes, to the given value |
| `VehicleMenu.MainMenu.GetStartUp` | electricity_motorcycle.cpp:389-391 | returns the power flag |
| `VehicleMenu.MainMenu.SetSpeed` | electricity_motorcycle.cpp:402-404 | only the speed changes, to the given value |
| `VehicleMenu.MainMenu.GetSpeed` | electricity_motorcycle.cpp:415-417 | returns the speed |
| `VehicleMenu.MainMenu.ExecuteMenu` | electricity_motorcycle.cpp:495-531 | the new (power, signal, speed) is `Execute` of the old one and the key, so every lemma about `Execute` and `Run` applies; the battery is untouched |
| `ControlLoop.Dashboard.constructor` | main.cpp:23-25 | a fresh menu in its initial state with a valid battery, key blank, exit flag down |
| `ControlLoop.Dashboard.DisplayTick` | electricity_motorcycle.cpp:570-582 | with the exit flag up nothing changes; otherwise the vehicle state becomes `Execute` of the pending key, the key becomes blank, and the exit flag is up exactly when the level is 0, that is exactly when the capacity is at the floor; the battery is untouched |
| `ControlLoop.Dashboard.InputTick` | electricity_motorcycle.cpp:542-558 | with the exit flag up nothing changes; otherwise the key read becomes the pending key and the exit flag is up exactly when it is '0' |
| `ControlLoop.Dashboard.Step` | electricity_motorcycle.cpp:542-584 | one pass of any of the four loops (input and display loops at the cited lines; decay pass at electricity_motorcycle.cpp:92-97 and temperature pass at electricity_motorcycle.cpp:175-178) keeps the invariant and moves the shared state exactly as `StepF` does; a key read with the flag down stores the key and raises the flag exactly on '0'; a display pass with the flag down applies `Execute` to the pending key, blanks it and raises the flag exactly at the capacity floor; a decay pass changes only the capacity, by one decay step, and the derived level; a temperature pass sets the temperature to the draw; battery passes leave key and flag alone; with the flag up, key and vehicle state stay frozen |
| `ControlLoop.Dashboard.RunSchedule` | main.cpp:31-36 | any interleaving of passes keeps the invariant and ends in exactly the state `Sched` gives for that interleaving (vehicle state, key, flag, capacity, temperature); the capacity ends at `DecayN` of its start over the number of decay passes (so within [30, start]); a flag that was up stays up with key and vehicle state unchanged; a schedule that reads a '0' always ends with the flag up; a flag that ends up raised was up already, or the schedule read a '0', or the capacity is at the floor |
| `ControlLoop.SchedExitFreezes` | electricity_motorcycle.cpp:543 | on the value model: once the exit flag is up, every further interleaving keeps it up and leaves the pending key and the vehicle state as they were, because the input and display loops stop |
| `ControlLoop.SchedZeroReadExits` | electricity_motorcycle.cpp:550-553 | on the value model: an interleaving that contains a read of '0' ends with the exit flag up, wherever the '0' occurs and whatever follows it |
| `ControlLoop.SchedExitCause` | electricity_motorcycle.cpp:571-582 | on the value model: the exit flag ends up only if it was up at the start, a '0' was read, or the capacity ends at the floor (the battery reads empty) |
| `ControlLoop.PowerOnThenDisplay` | electricity_motorcycle.cpp:570-582 | from a running dashboard above the floor, reading '1' and then one display pass turns the power on, blanks the key, keeps the flag down and changes nothing else |

## Left out

- Threads, `std::mutex`, `sleep_for`, `join` and `detach`: each loop pass is one atomic step, and an interleaving is a sequence of whole passes. This is an abstraction: the four loops lock four different mutexes (`decreaseBattery`, `randomTemperature`, `input`, `display`), so no pass excludes another; the input and display loops both touch `key` under different locks, and the display loop reads the battery level without the battery's lock. Races inside a pass are not captured.
- The write to `key` of an input pass that was already blocked in `getch()` when the exit flag went up: in the source that pass still stores the key it then reads (nothing reads it afterwards); the model's input pass checks the flag atomically with the write, so `key` stays frozen after exit.
- `stopDecreaseBattery`, `stopRandomTemperature` and the destructor: they only detach threads and change no modelled state. The battery loops never look at the exit flag, so `RunSchedule` lets decay and temperature passes continue after exit, as the source's detached threads do.
- `getRandomNumber`: a foreign random generator; its results are the `capacityDraw`, `temperatureDraw` and `Resample` parameters, with the ranges as preconditions.
- All console and terminal drawing: `leftTurn`, `rightTurn`, `offTurn`, `turnSignal`, `startMenu`, `displayMenu`, the screen clears and the exit messages.
- The conversion of `getch()`'s `int` result to `char`: keys are Dafny characters.
- `VehicleMenu.SpeedKeys`: the speed is an unbounded integer, so the signed 32-bit overflow of `speed` in C++ after about two billion presses is not modelled.
- `BatteryState.Battery.SetBatteryLevel`: `(current - min) * 100` is computed on unbounded integers; with the bounds the program uses it stays far below the 32-bit limit.
- The header file declares `getBatteryLevel` and `getBatteryTemperature` as `void`, `setSpeed` with no parameter, and `getfanMode` in lower case; the model follows the implementation file. The `TurnSignal` enumeration is taken from the header.
- The usage comment in main.cpp names 'o' for turning the signal off; the code tests 'O', and the model follows the code.
- The copy under source/ is an earlier, truncated version of the same battery code and is not part of this model.
