/** The cooling system: a button and a fan that never talk to each other
    directly. The button tells the mediator it was pressed; the mediator
    turns the fan off or on; the fan asks the mediator to start or stop the
    power supply. Unset references are null, as in the source. */
module Mediator {

  /** The lines the components print, in order. */
  datatype Event = PressingButton | PowerOn | PowerOff

  /** What pressing the button prints when the fan is `on` beforehand. */
  function PressEvents(on: bool): seq<Event>
  {
    [PressingButton, if on then PowerOff else PowerOn]
  }

  /** What `n` presses print, starting with the fan `on` or off. */
  function Presses(on: bool, n: nat): seq<Event>
    decreases n
  {
    if n == 0 then [] else PressEvents(on) + Presses(!on, n - 1)
  }

  /** The presses alternate: every press prints "Pressing the button"
      followed by a power line, and the power lines alternate between off
      and on, starting with off exactly when the fan starts on. */
  lemma {:induction false} PressesAlternate(on: bool, n: nat)
    ensures |Presses(on, n)| == 2 * n
    ensures forall k :: 0 <= k < n ==> Presses(on, n)[2 * k] == PressingButton
    ensures forall k :: 0 <= k < n ==>
      Presses(on, n)[2 * k + 1] == (if (k % 2 == 0) == on then PowerOff else PowerOn)
    decreases n
  {
    if n > 0 {
      PressesAlternate(!on, n - 1);
      var rest := Presses(!on, n - 1);
      assert Presses(on, n) == PressEvents(on) + rest;
      forall k | 1 <= k < n
        ensures Presses(on, n)[2 * k] == PressingButton
        ensures Presses(on, n)[2 * k + 1] == (if (k % 2 == 0) == on then PowerOff else PowerOn)
      {
        assert Presses(on, n)[2 * k] == rest[2 * (k - 1)];
        assert Presses(on, n)[2 * k + 1] == rest[2 * (k - 1) + 1];
      }
    }
  }

  /** Two presses in a row: the fan ends where it began. */
  lemma PressTwiceEvents(on: bool)
    ensures Presses(on, 2) == PressEvents(on) + PressEvents(!on)
  {
    assert Presses(!on, 1) == PressEvents(!on) + [];
  }

  class PowerSupplier {
    constructor ()
    {
    }

    method TurnOn() returns (e: Event)
      ensures e == PowerOn
    {
      e := PowerOn;
    }

    method TurnOff() returns (e: Event)
      ensures e == PowerOff
    {
      e := PowerOff;
    }
  }

  class Fan {
    var mediator: CoolingSystemMediator?
    var isOn: bool

    /** A new fan is off and knows no mediator. */
    constructor ()
      ensures mediator == null && !isOn
    {
      mediator := null;
      isOn := false;
    }

    method SetMediator(m: CoolingSystemMediator)
      modifies this
      ensures mediator == m && isOn == old(isOn)
    {
      mediator := m;
    }

    function IsOn(): bool
      reads this
    {
      isOn
    }

    /** Starts the power through the mediator, then records that the fan
        is on; a fan already on is started again. */
    method TurnOn() returns (events: seq<Event>)
      requires mediator != null && mediator.powerSupplier != null
      modifies this
      ensures isOn && mediator == old(mediator)
      ensures events == [PowerOn]
    {
      events := mediator.Start();
      isOn := true;
    }

    /** Records that the fan is off, then stops the power through the
        mediator; a fan already off is stopped again. */
    method TurnOff() returns (events: seq<Event>)
      requires mediator != null && mediator.powerSupplier != null
      modifies this
      ensures !isOn && mediator == old(mediator)
      ensures events == [PowerOff]
    {
      isOn := false;
      events := mediator.Stop();
    }
  }

  class Button {
    var mediator: CoolingSystemMediator?

    constructor ()
      ensures mediator == null
    {
      mediator := null;
    }

    method SetMediator(m: CoolingSystemMediator)
      modifies this
      ensures mediator == m
    {
      mediator := m;
    }

    /** Prints "Pressing the button" and hands the press to the mediator. */
    method Press() returns (events: seq<Event>)
      requires mediator != null && mediator.Ready()
      modifies mediator.fan
      ensures mediator.fan.isOn == !old(mediator.fan.isOn) && mediator.fan.mediator == old(mediator.fan.mediator)
      ensures events == PressEvents(old(mediator.fan.isOn))
    {
      var more := mediator.Press();
      events := [PressingButton] + more;
    }
  }

  class CoolingSystemMediator {
    var button: Button?
    var fan: Fan?
    var powerSupplier: PowerSupplier?

    constructor ()
      ensures button == null && fan == null && powerSupplier == null
    {
      button := null;
      fan := null;
      powerSupplier := null;
    }

    /** A press can go through: there is a fan, and the mediator the fan
        reports to has a power supplier. */
    predicate Ready()
      reads this, fan, if fan != null && fan.mediator != null then {fan.mediator} else {}
    {
      fan != null && fan.mediator != null && fan.mediator.powerSupplier != null
    }

    /** Stores the button and points it back at this mediator. */
    method SetButton(b: Button)
      modifies this, b
      ensures button == b && b.mediator == this
      ensures fan == old(fan) && powerSupplier == old(powerSupplier)
    {
      button := b;
      button.SetMediator(this);
    }

    /** Stores the fan and points it back at this mediator. */
    method SetFan(f: Fan)
      modifies this, f
      ensures fan == f && f.mediator == this && f.isOn == old(f.isOn)
      ensures button == old(button) && powerSupplier == old(powerSupplier)
    {
      fan := f;
      fan.SetMediator(this);
    }

    /** Stores the power supplier; nothing points back. */
    method SetPowerSupplier(p: PowerSupplier)
      modifies this
      ensures powerSupplier == p
      ensures button == old(button) && fan == old(fan)
    {
      powerSupplier := p;
    }

    /** Turns the fan off when it is on, on when it is off. */
    method Press() returns (events: seq<Event>)
      requires Ready()
      modifies fan
      ensures fan.isOn == !old(fan.isOn) && fan.mediator == old(fan.mediator)
      ensures events == [if old(fan.isOn) then PowerOff else PowerOn]
    {
      if fan.IsOn() {
        events := fan.TurnOff();
      } else {
        events := fan.TurnOn();
      }
    }

    method Start() returns (events: seq<Event>)
      requires powerSupplier != null
      ensures events == [PowerOn]
    {
      var e := powerSupplier.TurnOn();
      events := [e];
    }

    method Stop() returns (events: seq<Event>)
      requires powerSupplier != null
      ensures events == [PowerOff]
    {
      var e := powerSupplier.TurnOff();
      events := [e];
    }
  }
}

module MediatorScenarios {
  import opened Mediator

  /** The wiring of the demo, with the fan off. */
  method Wire() returns (button: Button, fan: Fan, mediator: CoolingSystemMediator)
    ensures fresh(button) && fresh(fan) && fresh(mediator)
    ensures button.mediator == mediator && mediator.fan == fan && mediator.Ready() && !fan.isOn
  {
    fan := new Fan();
    var power := new PowerSupplier();
    button := new Button();
    mediator := new CoolingSystemMediator();
    mediator.SetButton(button);
    mediator.SetFan(fan);
    mediator.SetPowerSupplier(power);
  }

  /** Any two presses in a row leave the fan as it was. */
  method PressTwice(button: Button) returns (events: seq<Event>)
    requires button.mediator != null && button.mediator.Ready()
    modifies button.mediator.fan
    ensures button.mediator.fan.isOn == old(button.mediator.fan.isOn)
    ensures events == Presses(old(button.mediator.fan.isOn), 2)
  {
    var on := button.mediator.fan.isOn;
    var e1 := button.Press();
    var e2 := button.Press();
    events := e1 + e2;
    PressTwiceEvents(on);
  }

  /** Two presses: the fan goes on and off again, and the lines alternate. */
  method Application() returns (shown: seq<bool>, events: seq<Event>)
    ensures shown == [false, true, false]
    ensures events == Presses(false, 2)
    ensures events == [PressingButton, PowerOn, PressingButton, PowerOff]
  {
    var button, fan, mediator := Wire();
    var first := fan.IsOn();
    var e1 := button.Press();
    var second := fan.IsOn();
    var e2 := button.Press();
    var third := fan.IsOn();
    shown := [first, second, third];
    events := e1 + e2;
    PressTwiceEvents(false);
  }
}
