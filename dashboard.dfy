/**
 The control loop of the dashboard: the shared `key` and `exitProgram`
 variables, one pass of the display loop, one pass of the input loop, and an
 arbitrary interleaving of those two with the battery's two background loops.

 Treating each pass as one atomic step is an abstraction: the C++ program's
 four loops lock four different mutexes, so their passes can overlap, and the
 display pass reads the battery without the battery's locks. Here an
 interleaving is a sequence of whole passes. Drawing, sleeping and the
 terminal library are not modelled.
 */
module ControlLoop {
  import opened BatteryState
  import opened VehicleMenu

  /** One atomic pass of one of the four loops. */
  datatype Event =
    | KeyRead(read: char)            // a pass of the input loop that read `read`
    | DisplayPass                    // a pass of the display loop
    | DecayPass                      // a pass of the battery decay loop
    | TemperaturePass(draw: int)     // a pass of the temperature loop that drew `draw`

  /** The temperature draws are within the range the random source produces. */
  predicate DrawsInRange(events: seq<Event>)
  {
    forall i :: 0 <= i < |events| && events[i].TemperaturePass? ==>
      MinTemperature <= events[i].draw <= MaxTemperature
  }

  /** The state the four loops share, as a value. */
  datatype Dash = Dash(vehicle: Vehicle, key: char, exit: bool, capacity: int, temperature: int)

  /**
   One pass of one loop on that state. The input and display loops do nothing
   once the exit flag is up; the battery loops never look at it.
   */
  function StepF(d: Dash, e: Event): Dash
  {
    match e
    case KeyRead(c) =>
      if d.exit then d else d.(key := c, exit := c == '0')
    case DisplayPass =>
      if d.exit then d
      else d.(vehicle := Execute(d.vehicle, d.key), key := ' ', exit := d.capacity == MinCapacity)
    case DecayPass => d.(capacity := DecayStep(MinCapacity, d.capacity))
    case TemperaturePass(t) => d.(temperature := t)
  }

  /** The passes in order, the last one applied last. */
  function Sched(d: Dash, events: seq<Event>): Dash
    decreases |events|
  {
    if events == [] then d
    else StepF(Sched(d, events[..|events| - 1]), events[|events| - 1])
  }

  /** A prefix of the schedule, followed by one more pass. */
  lemma SchedSnoc(d: Dash, events: seq<Event>, e: Event)
    ensures Sched(d, events + [e]) == StepF(Sched(d, events), e)
  {
    assert (events + [e])[..|events|] == events;
  }

  /** Once the exit flag is up, it stays up and the key and vehicle state are frozen. */
  lemma {:induction false} SchedExitFreezes(d: Dash, events: seq<Event>)
    requires d.exit
    ensures var r := Sched(d, events); r.exit && r.key == d.key && r.vehicle == d.vehicle
    decreases |events|
  {
    if events != [] {
      SchedExitFreezes(d, events[..|events| - 1]);
    }
  }

  /** A schedule that reads a '0' always ends with the exit flag up. */
  lemma {:induction false} SchedZeroReadExits(d: Dash, events: seq<Event>)
    requires KeyRead('0') in events
    ensures Sched(d, events).exit
    decreases |events|
  {
    var init, last := events[..|events| - 1], events[|events| - 1];
    assert events == init + [last];
    if last != KeyRead('0') {
      assert KeyRead('0') in init;
      SchedZeroReadExits(d, init);
      SchedExitFreezes(Sched(d, init), [last]);
    }
  }

  /** The exit flag goes up only if it was up, a '0' was read, or the battery reached the floor. */
  lemma {:induction false} SchedExitCause(d: Dash, events: seq<Event>)
    ensures var r := Sched(d, events);
      r.exit ==> d.exit || KeyRead('0') in events || r.capacity == MinCapacity
    decreases |events|
  {
    if events != [] {
      var init, last := events[..|events| - 1], events[|events| - 1];
      assert events == init + [last];
      assert forall x :: x in init ==> x in events;
      SchedExitCause(d, init);
    }
  }

  /** From a running dashboard above the floor, '1' then a display pass powers on and keeps running. */
  lemma PowerOnThenDisplay(d: Dash)
    requires !d.exit && d.capacity > MinCapacity
    ensures Sched(d, [KeyRead('1'), DisplayPass]) ==
      d.(vehicle := d.vehicle.(startUp := true), key := ' ')
  {
    assert [KeyRead('1'), DisplayPass][..1] == [KeyRead('1')];
    assert [KeyRead('1')][..0] == [];
  }

  class Dashboard {
    const menu: MainMenu
    var key: char
    var exitProgram: bool

    ghost predicate Valid()
      reads this, menu, menu.battery
    {
      menu.Valid()
    }

    /** The shared state as a value. */
    function Abs(): Dash
      reads this, menu, menu.battery
    {
      Dash(menu.State(), key, exitProgram, menu.battery.capacity, menu.battery.temperature)
    }

    /** The state `main` sets up before starting the two threads. */
    constructor (capacityDraw: int, temperatureDraw: int)
      requires MinCapacity <= capacityDraw <= MaxCapacity
      requires MinTemperature <= temperatureDraw <= MaxTemperature
      ensures Valid() && fresh(menu) && fresh(menu.battery)
      ensures menu.State() == Initial()
      ensures menu.battery.capacity == capacityDraw && menu.battery.temperature == temperatureDraw
      ensures key == ' ' && !exitProgram
    {
      menu := new MainMenu(capacityDraw, temperatureDraw);
      key := ' ';
      exitProgram := false;
    }

    /**
     One pass of the display loop: once the exit flag is up nothing happens;
     otherwise apply the pending key, clear it, and raise the exit flag
     exactly when the battery reads empty.
     */
    method DisplayTick()
      requires Valid()
      modifies this`key, this`exitProgram, menu`signal, menu`startUp, menu`speed
      ensures Valid()
      ensures old(exitProgram) ==> exitProgram && key == old(key) && menu.State() == old(menu.State())
      ensures !old(exitProgram) ==>
        && menu.State() == Execute(old(menu.State()), old(key))
        && key == ' '
        && (exitProgram <==> menu.battery.level == 0)
        && (exitProgram <==> menu.battery.capacity == MinCapacity)
    {
      if !exitProgram {
        menu.ExecuteMenu(key);
        key := ' ';
        var level := menu.battery.GetBatteryLevel();
        if level == 0 {
          exitProgram := true;
        }
      }
    }

    /** One pass of the input loop: once the exit flag is up nothing happens; a '0' raises it. */
    method InputTick(read: char)
      modifies this`key, this`exitProgram
      ensures old(exitProgram) ==> exitProgram && key == old(key)
      ensures !old(exitProgram) ==> key == read && (exitProgram <==> read == '0')
    {
      if !exitProgram {
        key := read;
        if key == '0' {
          exitProgram := true;
        }
      }
    }

    /** One atomic pass of whichever loop the scheduler runs next. */
    method Step(e: Event)
      requires Valid()
      requires e.TemperaturePass? ==> MinTemperature <= e.draw <= MaxTemperature
      modifies this`key, this`exitProgram, menu`signal, menu`startUp, menu`speed
      modifies menu.battery`capacity, menu.battery`level, menu.battery`temperature, menu.battery`fanMode
      ensures Valid()
      ensures old(exitProgram) ==> exitProgram && key == old(key) && menu.State() == old(menu.State())
      ensures menu.battery.capacity == (if e.DecayPass? then DecayStep(MinCapacity, old(menu.battery.capacity))
                                        else old(menu.battery.capacity))
      ensures menu.battery.temperature == (if e.TemperaturePass? then e.draw else old(menu.battery.temperature))
      ensures !e.DisplayPass? ==> menu.State() == old(menu.State())
      ensures e.DisplayPass? && !old(exitProgram) ==>
        && menu.State() == Execute(old(menu.State()), old(key))
        && key == ' '
        && (exitProgram <==> menu.battery.capacity == MinCapacity)
      ensures e.KeyRead? && !old(exitProgram) ==> key == e.read && (exitProgram <==> e.read == '0')
      ensures e.DecayPass? || e.TemperaturePass? ==> key == old(key) && exitProgram == old(exitProgram)
      ensures Abs() == StepF(old(Abs()), e)
    {
      match e
      case KeyRead(c) => InputTick(c);
      case DisplayPass => DisplayTick();
      case DecayPass => menu.battery.DecayTick();
      case TemperaturePass(t) => menu.battery.Resample(t);
    }

    /**
     Any interleaving of the four loops keeps the battery invariant, never
     raises the capacity, never lowers the exit flag, and changes neither the
     vehicle state nor the pending key once the exit flag is up. The flag goes
     up only through a '0' read or an empty battery.
     */
    method RunSchedule(events: seq<Event>)
      requires Valid()
      requires DrawsInRange(events)
      modifies this`key, this`exitProgram, menu`signal, menu`startUp, menu`speed
      modifies menu.battery`capacity, menu.battery`level, menu.battery`temperature, menu.battery`fanMode
      ensures Valid()
      ensures menu.battery.capacity == DecayN(MinCapacity, old(menu.battery.capacity), DecayCount(events))
      ensures MinCapacity <= menu.battery.capacity <= old(menu.battery.capacity)
      ensures old(exitProgram) ==> exitProgram && key == old(key) && menu.State() == old(menu.State())
      ensures exitProgram ==> old(exitProgram) || KeyRead('0') in events || menu.battery.capacity == MinCapacity
      ensures KeyRead('0') in events ==> exitProgram
      ensures Abs() == Sched(old(Abs()), events)
    {
      var i := 0;
      while i < |events|
        invariant 0 <= i <= |events|
        invariant Valid()
        invariant menu.battery.capacity == DecayN(MinCapacity, old(menu.battery.capacity), DecayCount(events[..i]))
        invariant old(exitProgram) ==> exitProgram && key == old(key) && menu.State() == old(menu.State())
        invariant exitProgram ==> old(exitProgram) || KeyRead('0') in events[..i] || menu.battery.capacity == MinCapacity
        invariant Abs() == Sched(old(Abs()), events[..i])
      {
        DecayCountSnoc(events[..i], events[i]);
        assert events[..i + 1] == events[..i] + [events[i]];
        DecayNSnoc(MinCapacity, old(menu.battery.capacity), DecayCount(events[..i]));
        SchedSnoc(old(Abs()), events[..i], events[i]);
        Step(events[i]);
        i := i + 1;
      }
      assert events[..i] == events;
      if KeyRead('0') in events {
        SchedZeroReadExits(old(Abs()), events);
      }
      DecayNMonotone(MinCapacity, old(menu.battery.capacity), 0, DecayCount(events));
    }
  }

  /** The number of decay passes in an interleaving. */
  function DecayCount(events: seq<Event>): nat
    decreases |events|
  {
    if events == [] then 0
    else (if events[0].DecayPass? then 1 else 0) + DecayCount(events[1..])
  }

  lemma {:induction false} DecayCountSnoc(events: seq<Event>, e: Event)
    ensures DecayCount(events + [e]) == DecayCount(events) + (if e.DecayPass? then 1 else 0)
    decreases |events|
  {
    if events == [] {
      assert [] + [e] == [e];
    } else {
      assert (events + [e])[1..] == events[1..] + [e];
      DecayCountSnoc(events[1..], e);
    }
  }

  /** One more decay pass after `n` of them is one more step of `DecayStep`. */
  lemma {:induction false} DecayNSnoc(min: int, c: int, n: nat)
    ensures DecayN(min, c, n + 1) == DecayStep(min, DecayN(min, c, n))
    decreases n
  {
    if n > 0 {
      DecayNSnoc(min, DecayStep(min, c), n - 1);
    }
  }
}
