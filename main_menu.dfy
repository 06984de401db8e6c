/**
 The vehicle state of the dashboard: power-on flag, turn signal and speed,
 changed by one key at a time through `executeMenu`.

 `Execute` is the transition function on values; `Run` applies it to a whole
 key sequence. The class `MainMenu` keeps the same state in fields that its
 setters overwrite, and its `ExecuteMenu` is proved to follow `Execute`.
 */
module VehicleMenu {
  import opened BatteryState

  datatype TurnSignal = Off | Left | Right

  datatype Vehicle = Vehicle(startUp: bool, signal: TurnSignal, speed: int)

  /** Speed the menu starts with. */
  const DefaultSpeed := 50

  /** The state a freshly constructed menu holds: powered off, signal off, speed 50. */
  function Initial(): Vehicle
  {
    Vehicle(false, Off, DefaultSpeed)
  }

  /** The keys that select a turn signal, and the signal each selects. */
  predicate IsSignalKey(key: char)
  {
    key == 'K' || key == 'M' || key == 'O'
  }

  function SignalFor(key: char): TurnSignal
    requires IsSignalKey(key)
  {
    if key == 'K' then Left else if key == 'M' then Right else Off
  }

  /** The power flag after a key: '1' turns on, '0' turns off, anything else keeps it. */
  function PowerAfter(startUp: bool, key: char): bool
  {
    if key == '1' then true else if key == '0' then false else startUp
  }

  /** One key press. Signal and speed keys act only once the power flag (after the key) is on. */
  function Execute(v: Vehicle, key: char): Vehicle
  {
    var on := PowerAfter(v.startUp, key);
    if !on then v.(startUp := on)
    else if IsSignalKey(key) then v.(startUp := on, signal := SignalFor(key))
    else if key == 'H' then v.(startUp := on, speed := v.speed + 1)
    else if key == 'P' then v.(startUp := on, speed := v.speed - 1)
    else v.(startUp := on)
  }

  /** The keys in order, each applied with `Execute`. */
  function Run(v: Vehicle, keys: seq<char>): Vehicle
    decreases |keys|
  {
    if keys == [] then v else Run(Execute(v, keys[0]), keys[1..])
  }

  /** The most recent signal key in `keys` decides the signal; none leaves `current`. */
  function LastSignal(keys: seq<char>, current: TurnSignal): TurnSignal
    decreases |keys|
  {
    if keys == [] then current
    else if IsSignalKey(keys[|keys| - 1]) then SignalFor(keys[|keys| - 1])
    else LastSignal(keys[..|keys| - 1], current)
  }

  /** '1' and '0' set the power flag and leave signal and speed as they were. */
  lemma PowerKeys(v: Vehicle)
    ensures Execute(v, '1') == Vehicle(true, v.signal, v.speed)
    ensures Execute(v, '0') == Vehicle(false, v.signal, v.speed)
  {
  }

  /** Whenever the power flag is off after a key, signal and speed are untouched. */
  lemma OffIgnoresKeys(v: Vehicle, key: char)
    requires !PowerAfter(v.startUp, key)
    ensures Execute(v, key) == v.(startUp := false)
  {
  }

  /** While on, 'K', 'M', 'O' select LEFT, RIGHT, OFF and keep the speed. */
  lemma SignalKeys(v: Vehicle)
    requires v.startUp
    ensures Execute(v, 'K') == Vehicle(true, Left, v.speed)
    ensures Execute(v, 'M') == Vehicle(true, Right, v.speed)
    ensures Execute(v, 'O') == Vehicle(true, Off, v.speed)
  {
  }

  /** While on, 'H' and 'P' change the speed by one, with no clamp, and keep the signal. */
  lemma SpeedKeys(v: Vehicle)
    requires v.startUp
    ensures Execute(v, 'H') == Vehicle(true, v.signal, v.speed + 1)
    ensures Execute(v, 'P') == Vehicle(true, v.signal, v.speed - 1)
  {
  }

  /** Any key outside '0', '1', 'K', 'M', 'O', 'H', 'P' (the blank included) changes nothing. */
  lemma OtherKeysNoop(v: Vehicle, key: char)
    requires key !in {'0', '1', 'K', 'M', 'O', 'H', 'P'}
    ensures Execute(v, key) == v
  {
  }

  lemma {:induction false} RunAppend(v: Vehicle, keys: seq<char>, key: char)
    ensures Run(v, keys + [key]) == Execute(Run(v, keys), key)
    decreases |keys|
  {
    if keys == [] {
      assert [] + [key] == [key];
    } else {
      assert (keys + [key])[1..] == keys[1..] + [key];
      RunAppend(Execute(v, keys[0]), keys[1..], key);
    }
  }

  /** Powered off and never powered on: a key sequence leaves the whole state as it was. */
  lemma {:induction false} RunWhileOff(v: Vehicle, keys: seq<char>)
    requires !v.startUp
    requires '1' !in keys
    ensures Run(v, keys) == v
    decreases |keys|
  {
    if keys != [] {
      assert keys[0] in keys;
      assert forall k :: k in keys[1..] ==> k in keys;
      RunWhileOff(Execute(v, keys[0]), keys[1..]);
    }
  }

  /**
   Powered on and never powered off: the speed moves by the number of 'H'
   presses minus the number of 'P' presses, and the power stays on.
   */
  lemma {:induction false} RunSpeed(v: Vehicle, keys: seq<char>)
    requires v.startUp
    requires '0' !in keys
    ensures Run(v, keys).startUp
    ensures Run(v, keys).speed == v.speed + multiset(keys)['H'] - multiset(keys)['P']
    decreases |keys|
  {
    if keys != [] {
      assert keys == [keys[0]] + keys[1..];
      assert multiset(keys) == multiset([keys[0]]) + multiset(keys[1..]);
      assert keys[0] in keys;
      assert forall k :: k in keys[1..] ==> k in keys;
      RunSpeed(Execute(v, keys[0]), keys[1..]);
    }
  }

  /** Powered on and never powered off: the last signal key wins, with no stacking. */
  lemma {:induction false} RunSignal(v: Vehicle, keys: seq<char>)
    requires v.startUp
    requires '0' !in keys
    ensures Run(v, keys).signal == LastSignal(keys, v.signal)
    decreases |keys|
  {
    if keys != [] {
      var init, last := keys[..|keys| - 1], keys[|keys| - 1];
      assert keys == init + [last];
      assert forall k :: k in init ==> k in keys;
      RunSignal(v, init);
      RunSpeed(v, init);
      RunAppend(v, init, last);
    }
  }

  /** Power on, then three speed-up presses: from the default 50 to 53. */
  lemma SpeedUpThreeTimes()
    ensures Run(Initial(), "1HHH") == Vehicle(true, Off, 53)
  {
  }

  /** While on, LEFT then RIGHT then OFF ends with the signal OFF. */
  lemma LeftRightOffEndsOff(v: Vehicle)
    requires v.startUp
    ensures Run(v, "KMO") == v.(signal := Off)
  {
  }

  class MainMenu {
    var signal: TurnSignal
    var startUp: bool
    var speed: int
    const battery: Battery

    ghost predicate Valid()
      reads this, battery
    {
      battery.Valid()
    }

    /** The vehicle state held in the fields. */
    function State(): Vehicle
      reads this
    {
      Vehicle(startUp, signal, speed)
    }

    /** The battery member is built first, from the two random draws. */
    constructor (capacityDraw: int, temperatureDraw: int)
      requires MinCapacity <= capacityDraw <= MaxCapacity
      requires MinTemperature <= temperatureDraw <= MaxTemperature
      ensures Valid() && fresh(battery)
      ensures State() == Initial()
      ensures battery.capacity == capacityDraw && battery.temperature == temperatureDraw
    {
      battery := new Battery(capacityDraw, temperatureDraw);
      signal := Off;
      startUp := false;
      speed := DefaultSpeed;
    }

    method SetSignal(s: TurnSignal)
      modifies this`signal
      ensures signal == s
    {
      signal := s;
    }

    method GetSignal() returns (s: TurnSignal)
      ensures s == signal
    {
      s := signal;
    }

    method SetStartUp(on: bool)
      modifies this`startUp
      ensures startUp == on
    {
      startUp := on;
    }

    method GetStartUp() returns (on: bool)
      ensures on == startUp
    {
      on := startUp;
    }

    method SetSpeed(s: int)
      modifies this`speed
      ensures speed == s
    {
      speed := s;
    }

    method GetSpeed() returns (s: int)
      ensures s == speed
    {
      s := speed;
    }

    /** Apply one key to the fields, through the setters, exactly as `Execute` does on values. */
    method ExecuteMenu(key: char)
      modifies this`signal, this`startUp, this`speed
      ensures State() == Execute(old(State()), key)
    {
      if key == '1' {
        SetStartUp(true);
      } else if key == '0' {
        SetStartUp(false);
      }

      var on := GetStartUp();
      if on {
        var newSpeed := GetSpeed();
        if key == 'K' {
          SetSignal(Left);
        } else if key == 'M' {
          SetSignal(Right);
        } else if key == 'O' {
          SetSignal(Off);
        } else if key == 'H' {
          newSpeed := newSpeed + 1;
          SetSpeed(newSpeed);
        } else if key == 'P' {
          newSpeed := newSpeed - 1;
          SetSpeed(newSpeed);
        }
      }
    }
  }
}
