/** The C utilities: the `clamp` macro, the `Colour` record and
    `updateColours`, whose phase is one function-static variable shared by
    every caller while the colour is owned by the caller and passed by pointer. */
module CUtils {
  import Utils

  /** The `clamp(x, a, b)` macro: a nested conditional, lower bound first. */
  function ClampMacro(x: real, a: real, b: real): (r: real)
  {
    if x < a then a else if x > b then b else x
  }

  /** The macro and the C++ template agree on every input, so everything
      proved about `Utils.Clamp` holds for the macro. */
  lemma ClampMacroIsClamp(x: real, a: real, b: real)
    ensures ClampMacro(x, a, b) == Utils.Clamp(x, a, b)
  {
  }

  /** With ordered bounds the macro lands in [a, b], and applying it twice
      is applying it once. */
  lemma ClampMacroInRange(x: real, a: real, b: real)
    requires a <= b
    ensures a <= ClampMacro(x, a, b) <= b
    ensures ClampMacro(ClampMacro(x, a, b), a, b) == ClampMacro(x, a, b)
  {
    ClampMacroIsClamp(x, a, b);
    ClampMacroIsClamp(ClampMacro(x, a, b), a, b);
    Utils.ClampIdempotent(x, a, b);
  }

  /** The caller-owned `Colour` record, written through a pointer. */
  class Colour {
    var r: real
    var g: real
    var b: real
    var a: real

    function Rgb(): Utils.RGBColour
      reads this
    {
      Utils.RGBColour(r, g, b)
    }

    constructor (r: real, g: real, b: real, a: real)
      ensures this.r == r && this.g == g && this.b == b && this.a == a
    {
      this.r, this.g, this.b, this.a := r, g, b, a;
    }
  }

  /** The translation unit of `updateColours`: its one function-static
      `current_state`, initialised to RED once for the whole program. */
  class ColourUpdater {
    var currentState: Utils.Phase

    constructor ()
      ensures currentState == Utils.Red
    {
      currentState := Utils.Red;
    }

    /** `updateColours(colour)`: the same step as the C++ cycler, with the
        phase taken from (and left in) the shared static; only the two ramped
        channels of the caller's colour are written, alpha never. */
    method UpdateColours(colour: Colour)
      modifies this, colour
      ensures Utils.Scroller(currentState, colour.Rgb())
           == Utils.Update(Utils.Scroller(old(currentState), old(colour.Rgb())))
      ensures colour.a == old(colour.a)
    {
      match currentState
      case Red =>
        colour.r := colour.r - Utils.STEP;
        colour.g := colour.g + Utils.STEP;
        if colour.r <= 0.0 {
          currentState := Utils.Green;
        }
      case Green =>
        colour.g := colour.g - Utils.STEP;
        colour.b := colour.b + Utils.STEP;
        if colour.g <= 0.0 {
          currentState := Utils.Blue;
        }
      case Blue =>
        colour.b := colour.b - Utils.STEP;
        colour.r := colour.r + Utils.STEP;
        if colour.b <= 0.0 {
          currentState := Utils.Red;
        }
    }
  }

  /** The phase belongs to `updateColours`, not to the colour: a first caller
      that drains its red channel moves the shared phase to GREEN, so a second
      caller's fresh full-red colour is then stepped as GREEN (g down, b up)
      and, its green already at zero, moves the phase on to BLUE. */
  method TwoCallersSharePhase() returns (second: Utils.RGBColour, phase: Utils.Phase)
    ensures second == Utils.RGBColour(1.0, -0.01, 0.01)
    ensures phase == Utils.Blue
  {
    var updater := new ColourUpdater();
    var mine := new Colour(0.01, 0.99, 0.0, 1.0);
    var theirs := new Colour(1.0, 0.0, 0.0, 1.0);
    updater.UpdateColours(mine);
    updater.UpdateColours(theirs);
    second, phase := theirs.Rgb(), updater.currentState;
  }
}
