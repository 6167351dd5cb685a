/**
 * The ESP-IDF lamp driver (esp32_idf/main/gpio_lights.c): four three-lamp modules (North, South,
 * East, West) on twelve output pins. A pin's level is `true` for 1 and `false` for 0. The pins
 * are indexed in the order of `ALL_PINS`: North red, yellow, green, then South, East and West,
 * so direction `d` owns pins `3*d` (red), `3*d + 1` (yellow) and `3*d + 2` (green). The pin
 * numbers chosen in Kconfig are taken to be twelve distinct pins.
 */
module GpioLights {

  const NumPins := 12
  const North := 0
  const South := 1
  const East := 2
  const West := 3

  type Levels = s: seq<bool> | |s| == NumPins witness seq(NumPins, _ => false)

  function RedPin(d: int): int { 3 * d }
  function YellowPin(d: int): int { 3 * d + 1 }
  function GreenPin(d: int): int { 3 * d + 2 }

  /** The direction that owns pin `i`. */
  function Owner(i: int): int { i / 3 }

  /** Pin levels after `gpio_lights_set(d, red, yellow, green)`. */
  function WithDirection(levels: Levels, d: int, red: bool, yellow: bool, green: bool): Levels {
    if 0 <= d < 4 then levels[RedPin(d) := red][YellowPin(d) := yellow][GreenPin(d) := green]
    else levels
  }

  /** Pin levels after `gpio_lights_set_ns`: North, then South, get the same three levels. */
  function WithNs(levels: Levels, red: bool, yellow: bool, green: bool): Levels {
    WithDirection(WithDirection(levels, North, red, yellow, green), South, red, yellow, green)
  }

  /** Pin levels after `gpio_lights_set_ew`: East, then West, get the same three levels. */
  function WithEw(levels: Levels, red: bool, yellow: bool, green: bool): Levels {
    WithDirection(WithDirection(levels, East, red, yellow, green), West, red, yellow, green)
  }

  /** Every pin low. */
  function Dark(): Levels { seq(NumPins, _ => false) }

  /** Pin levels after `gpio_lights_all_red`. */
  function WithAllRed(levels: Levels): Levels {
    WithEw(WithNs(levels, true, false, false), true, false, false)
  }

  /** Pin levels written by `gpio_lights_toggle_yellow` once the new yellow state is `on`. */
  function YellowOnly(on: bool): Levels {
    seq(NumPins, i => i % 3 == 1 && on)
  }

  class Lights {
    const pins: array<bool>
    /** `yellow_state`, the blink phase of the four yellows. */
    var yellowState: bool

    ghost predicate Valid()
      reads this
    {
      pins.Length == NumPins
    }

    /** `gpio_lights_init`: every pin is an output driven low; `yellow_state` starts false. */
    constructor ()
      ensures Valid() && fresh(pins)
      ensures pins[..] == Dark() && !yellowState
    {
      pins := new bool[NumPins](_ => false);
      yellowState := false;
    }

    /** `gpio_lights_set(direction, red, yellow, green)` */
    method Set(direction: int, red: bool, yellow: bool, green: bool)
      requires Valid()
      modifies pins
      ensures pins[..] == WithDirection(old(pins[..]), direction, red, yellow, green)
    {
      var rPin, yPin, gPin;
      if direction == North {
        rPin, yPin, gPin := 0, 1, 2;
      } else if direction == South {
        rPin, yPin, gPin := 3, 4, 5;
      } else if direction == East {
        rPin, yPin, gPin := 6, 7, 8;
      } else if direction == West {
        rPin, yPin, gPin := 9, 10, 11;
      } else {
        return;
      }
      pins[rPin] := red;
      pins[yPin] := yellow;
      pins[gPin] := green;
    }

    /** `gpio_lights_set_ns` */
    method SetNs(red: bool, yellow: bool, green: bool)
      requires Valid()
      modifies pins
      ensures pins[..] == WithNs(old(pins[..]), red, yellow, green)
    {
      Set(North, red, yellow, green);
      Set(South, red, yellow, green);
    }

    /** `gpio_lights_set_ew` */
    method SetEw(red: bool, yellow: bool, green: bool)
      requires Valid()
      modifies pins
      ensures pins[..] == WithEw(old(pins[..]), red, yellow, green)
    {
      Set(East, red, yellow, green);
      Set(West, red, yellow, green);
    }

    /** `gpio_lights_all_off`: a loop over all twelve pins. */
    method AllOff()
      requires Valid()
      modifies pins
      ensures pins[..] == Dark()
    {
      for i := 0 to NumPins
        invariant forall k :: 0 <= k < i ==> !pins[k]
      {
        pins[i] := false;
      }
    }

    /** `gpio_lights_all_red` */
    method AllRed()
      requires Valid()
      modifies pins
      ensures pins[..] == WithAllRed(old(pins[..]))
    {
      SetNs(true, false, false);
      SetEw(true, false, false);
    }

    /** `gpio_lights_toggle_yellow` */
    method ToggleYellow()
      requires Valid()
      modifies this, pins
      ensures Valid()
      ensures yellowState == !old(yellowState)
      ensures pins[..] == YellowOnly(yellowState)
    {
      yellowState := !yellowState;
      pins[0], pins[1], pins[2] := false, yellowState, false;
      pins[3], pins[4], pins[5] := false, yellowState, false;
      pins[6], pins[7], pins[8] := false, yellowState, false;
      pins[9], pins[10], pins[11] := false, yellowState, false;
      assert pins[..] == YellowOnly(yellowState);
    }
  }

  /** A valid direction gets exactly the requested three levels and no other pin moves. */
  lemma SetWritesOnlyItsDirection(levels: Levels, d: int, red: bool, yellow: bool, green: bool)
    requires 0 <= d < 4
    ensures var out := WithDirection(levels, d, red, yellow, green);
      out[RedPin(d)] == red && out[YellowPin(d)] == yellow && out[GreenPin(d)] == green &&
      forall i :: 0 <= i < NumPins && Owner(i) != d ==> out[i] == levels[i]
  {
  }

  /** A direction outside 0..3 changes no pin. */
  lemma InvalidDirectionChangesNothing(levels: Levels, d: int, red: bool, yellow: bool, green: bool)
    requires !(0 <= d < 4)
    ensures WithDirection(levels, d, red, yellow, green) == levels
  {
  }

  /** After `set_ns`, North and South show identical levels; East and West are untouched. */
  lemma NsMirrored(levels: Levels, red: bool, yellow: bool, green: bool)
    ensures var out := WithNs(levels, red, yellow, green);
      out[0..3] == out[3..6] == [red, yellow, green] && out[6..] == levels[6..]
  {
  }

  /** After `set_ew`, East and West show identical levels; North and South are untouched. */
  lemma EwMirrored(levels: Levels, red: bool, yellow: bool, green: bool)
    ensures var out := WithEw(levels, red, yellow, green);
      out[6..9] == out[9..12] == [red, yellow, green] && out[..6] == levels[..6]
  {
  }

  /** `all_red` lights every red and nothing else, whatever was lit before. */
  lemma AllRedShape(levels: Levels)
    ensures forall i :: 0 <= i < NumPins ==> WithAllRed(levels)[i] == (i % 3 == 0)
  {
  }

  /** After a yellow toggle every yellow shows the new state and every red and green is off. */
  lemma ToggleYellowShape(on: bool)
    ensures forall d :: 0 <= d < 4 ==>
      YellowOnly(on)[YellowPin(d)] == on && !YellowOnly(on)[RedPin(d)] && !YellowOnly(on)[GreenPin(d)]
  {
  }
}
