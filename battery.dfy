/**
 The battery of the electric motorcycle: a raw capacity between two fixed
 bounds, a percentage level derived from it, a temperature and a fan that is
 on whenever the temperature exceeds a threshold.

 The two background loops of the C++ program (capacity decay every four seconds,
 temperature resampling every three) are modelled by one atomic step each,
 `DecayTick` and `Resample`; the random draws they make are parameters.
 */
module BatteryState {

  /** Capacity that reads as 100%. */
  const MaxCapacity := 70
  /** Capacity that reads as 0%. */
  const MinCapacity := 30
  /** Range of the uniformly drawn temperature. */
  const MinTemperature := 20
  const MaxTemperature := 80
  /** The fan runs at temperatures strictly above this. */
  const FanThreshold := 50

  /** C++ division on `int`: the quotient is truncated toward zero. */
  function TruncDiv(a: int, b: int): (q: int)
    requires b != 0
    ensures 0 <= a && 0 < b ==> q == a / b
  {
    var m := (if a < 0 then -a else a) / (if b < 0 then -b else b);
    if (a < 0) != (b < 0) then -m else m
  }

  /**
   `TruncDiv` is C++ division for every sign combination: the remainder
   a - q * b is smaller than the divisor in absolute value and has the sign
   of the dividend.
   */
  lemma TruncDivTruncates(a: int, b: int)
    requires b != 0
    ensures var r := a - TruncDiv(a, b) * b;
      (if r < 0 then -r else r) < (if b < 0 then -b else b) &&
      (a >= 0 ==> r >= 0) && (a <= 0 ==> r <= 0)
  {
  }

  /** The integer percentage that `setBatteryLevel` assigns. */
  function LevelOf(min: int, max: int, current: int): int
    requires min != max
  {
    TruncDiv((current - min) * 100, max - min)
  }

  /** Within the bounds the level is a percentage, 0 at the floor and 100 at the top. */
  lemma LevelRange(min: int, max: int, current: int)
    requires min < max
    requires min <= current <= max
    ensures 0 <= LevelOf(min, max, current) <= 100
    ensures LevelOf(min, max, current) == 0 <==> (current - min) * 100 < max - min
    ensures current == min ==> LevelOf(min, max, current) == 0
    ensures current == max ==> LevelOf(min, max, current) == 100
  {
    var a, b := (current - min) * 100, max - min;
    assert LevelOf(min, max, current) == a / b;
    DivBounds(a, b, 100);
    if current == max {
      assert a == b * 100;
    }
  }

  /** Division of 0 <= a <= b * k by b > 0 lies in [0, k] and is 0 exactly when a < b. */
  lemma DivBounds(a: int, b: int, k: int)
    requires 0 <= a <= b * k && 0 < b
    ensures 0 <= a / b <= k
    ensures a / b == 0 <==> a < b
    ensures a == b * k ==> a / b == k
  {
    var q := a / b;
    assert a == b * q + a % b;
    if q > k {
      MulStrict(b, k, q);
    }
    if a == b * k && q < k {
      MulStrict(b, q, k);
    }
  }

  lemma MulStrict(b: int, x: int, y: int)
    requires 0 < b && x < y
    ensures b * x + b <= b * y
  {
    Distribute(b, x, y);
    AtLeastOnce(b, y - x);
  }

  lemma Distribute(b: int, x: int, y: int)
    ensures b * y == b * x + b * (y - x)
  {
  }

  lemma AtLeastOnce(b: int, d: int)
    requires 0 < b && 1 <= d
    ensures b <= b * d
  {
  }

  /** With the fixed bounds 30..70 the battery reads empty exactly at the floor. */
  lemma EmptyIffAtFloor(c: int)
    requires MinCapacity <= c <= MaxCapacity
    ensures LevelOf(MinCapacity, MaxCapacity, c) == 0 <==> c == MinCapacity
  {
    LevelRange(MinCapacity, MaxCapacity, c);
  }

  /** Two sample readings of the formula: 70 reads 100, 69 reads 97. */
  lemma LevelExamples()
    ensures LevelOf(MinCapacity, MaxCapacity, 70) == 100
    ensures LevelOf(MinCapacity, MaxCapacity, 69) == 97
  {
    assert (69 - 30) * 100 / 40 == 97;
  }

  /** The fan rule of `setFanMode`. */
  predicate FanOn(temperature: int)
  {
    temperature > FanThreshold
  }

  /** One pass of the decay loop on the capacity alone: drop by one unless at the floor. */
  function DecayStep(min: int, c: int): int
  {
    if c > min then c - 1 else c
  }

  /** The capacity after `n` passes of the decay loop. */
  function DecayN(min: int, c: int, n: nat): int
    decreases n
  {
    if n == 0 then c else DecayN(min, DecayStep(min, c), n - 1)
  }

  /** From any capacity at or above the floor, `n` decay passes leave exactly max(min, c - n). */
  lemma {:induction false} DecayNExact(min: int, c: int, n: nat)
    requires min <= c
    ensures DecayN(min, c, n) == if c - n < min then min else c - n
    decreases n
  {
    if n > 0 {
      DecayNExact(min, DecayStep(min, c), n - 1);
    }
  }

  /** Decay never raises the capacity and never takes it below the floor. */
  lemma DecayNMonotone(min: int, c: int, n: nat, m: nat)
    requires min <= c
    requires n <= m
    ensures min <= DecayN(min, c, m) <= DecayN(min, c, n) <= c
  {
    DecayNExact(min, c, n);
    DecayNExact(min, c, m);
  }

  /**
   From capacity c the battery reads empty after exactly c - 30 decay passes:
   never before, and always from then on, with the capacity pinned at the floor.
   */
  lemma DrainsAfterExactly(c: int, n: nat)
    requires MinCapacity <= c <= MaxCapacity
    ensures var d := DecayN(MinCapacity, c, n);
      MinCapacity <= d <= MaxCapacity &&
      (LevelOf(MinCapacity, MaxCapacity, d) == 0 <==> n >= c - MinCapacity) &&
      (n >= c - MinCapacity ==> d == MinCapacity)
  {
    DecayNExact(MinCapacity, c, n);
    EmptyIffAtFloor(DecayN(MinCapacity, c, n));
  }

  class Battery {
    const maxCapacity: int
    const minCapacity: int
    var capacity: int
    var level: int
    var temperature: int
    var fanMode: bool

    /**
     The class invariant: bounds as the constructor fixes them, capacity within
     them, level derived from capacity, temperature in its drawn range and the
     fan consistent with the latest temperature.
     */
    ghost predicate Valid()
      reads this
    {
      && minCapacity == MinCapacity && maxCapacity == MaxCapacity
      && minCapacity <= capacity <= maxCapacity
      && level == LevelOf(minCapacity, maxCapacity, capacity)
      && MinTemperature <= temperature <= MaxTemperature
      && fanMode == FanOn(temperature)
    }

    /** `capacityDraw` and `temperatureDraw` stand for the two random draws. */
    constructor (capacityDraw: int, temperatureDraw: int)
      requires MinCapacity <= capacityDraw <= MaxCapacity
      requires MinTemperature <= temperatureDraw <= MaxTemperature
      ensures Valid()
      ensures capacity == capacityDraw && temperature == temperatureDraw
      ensures 0 <= level <= 100
    {
      maxCapacity := MaxCapacity;
      minCapacity := MinCapacity;
      capacity := capacityDraw;
      temperature := temperatureDraw;
      new;
      SetBatteryLevel(minCapacity, maxCapacity, capacity);
      SetFanMode(temperature);
      LevelRange(minCapacity, maxCapacity, capacity);
    }

    method SetBatteryLevel(min: int, max: int, current: int)
      requires min != max
      modifies this`level
      ensures level == LevelOf(min, max, current)
      ensures min < max && min <= current <= max ==> 0 <= level <= 100
    {
      level := LevelOf(min, max, current);
      if min < max && min <= current <= max {
        LevelRange(min, max, current);
      }
    }

    method SetFanMode(t: int)
      modifies this`fanMode
      ensures fanMode <==> t > FanThreshold
    {
      if t > FanThreshold {
        fanMode := true;
      } else {
        fanMode := false;
      }
    }

    method GetBatteryLevel() returns (l: int)
      ensures l == level
      ensures Valid() ==> 0 <= l <= 100 && (l == 0 <==> capacity == MinCapacity)
    {
      l := level;
      if Valid() {
        LevelRange(minCapacity, maxCapacity, capacity);
      }
    }

    method GetBatteryTemperature() returns (t: int)
      ensures t == temperature
      ensures Valid() ==> MinTemperature <= t <= MaxTemperature
    {
      t := temperature;
    }

    method GetCurrentBatteryCapacity() returns (c: int)
      ensures c == capacity
      ensures Valid() ==> MinCapacity <= c <= MaxCapacity
    {
      c := capacity;
    }

    method GetFanMode() returns (f: bool)
      ensures f == fanMode
      ensures Valid() ==> (f <==> temperature > FanThreshold)
    {
      f := fanMode;
    }

    /** One pass of the decay loop, inside its critical section. */
    method DecayTick()
      requires Valid()
      modifies this`capacity, this`level
      ensures Valid()
      ensures capacity == DecayStep(minCapacity, old(capacity))
      ensures old(capacity) > minCapacity ==> capacity == old(capacity) - 1
      ensures old(capacity) <= minCapacity ==> capacity == old(capacity) && level == old(level)
      ensures temperature == old(temperature) && fanMode == old(fanMode)
    {
      if capacity > minCapacity {
        capacity := capacity - 1;
        SetBatteryLevel(minCapacity, maxCapacity, capacity);
      }
    }

    /** One pass of the temperature loop; `t` stands for the random draw. */
    method Resample(t: int)
      requires Valid()
      requires MinTemperature <= t <= MaxTemperature
      modifies this`temperature, this`fanMode
      ensures Valid()
      ensures temperature == t && (fanMode <==> t > FanThreshold)
      ensures capacity == old(capacity) && level == old(level)
    {
      temperature := t;
      SetFanMode(temperature);
    }
  }
}
