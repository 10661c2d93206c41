/** The C++ utilities shared by the chapters: the `clamp` and `arrayDataSize`
    templates and the `ScrollingColour` cycler that the scenes use for their
    clear colour. Colour channels are `float` in the program and `real` here. */
module Utils {

  /** `clamp`: the lower bound is tested first, then the upper one. */
  function Clamp(value: real, lowerBound: real, higherBound: real): (r: real)
    ensures value < lowerBound ==> r == lowerBound
    ensures lowerBound <= value && value > higherBound ==> r == higherBound
    ensures lowerBound <= value <= higherBound ==> r == value
    ensures lowerBound <= higherBound ==> lowerBound <= r <= higherBound
  {
    if value < lowerBound then lowerBound
    else if value > higherBound then higherBound
    else value
  }

  function Min(a: real, b: real): real { if a <= b then a else b }
  function Max(a: real, b: real): real { if a <= b then b else a }

  /** With ordered bounds clamp is the usual max(lower, min(value, higher)). */
  lemma ClampIsMaxMin(value: real, lowerBound: real, higherBound: real)
    requires lowerBound <= higherBound
    ensures Clamp(value, lowerBound, higherBound) == Max(lowerBound, Min(value, higherBound))
  {
  }

  /** Clamping an already clamped value changes nothing. */
  lemma ClampIdempotent(value: real, lowerBound: real, higherBound: real)
    requires lowerBound <= higherBound
    ensures var once := Clamp(value, lowerBound, higherBound);
            Clamp(once, lowerBound, higherBound) == once
  {
  }

  /** With inverted bounds the lower test wins below `lowerBound` and the upper
      one everywhere else, so the result is always one of the two bounds. */
  lemma ClampInvertedBounds(value: real, lowerBound: real, higherBound: real)
    requires higherBound < lowerBound
    ensures Clamp(value, lowerBound, higherBound) == if value < lowerBound then lowerBound else higherBound
  {
  }

  /** `arrayDataSize` for a `std::array<T, n>` whose element type has size
      `elementSize` bytes. */
  function ArrayDataSize(n: nat, elementSize: nat): (bytes: nat)
    ensures bytes == n * elementSize
  {
    if n == 0 then 0 else n * elementSize
  }

  /** One more element adds exactly one element's size. */
  lemma ArrayDataSizeGrows(n: nat, elementSize: nat)
    ensures ArrayDataSize(n + 1, elementSize) == ArrayDataSize(n, elementSize) + elementSize
  {
  }

  // ---------------------------------------------------------------------
  // ScrollingColour

  datatype Phase = Red | Green | Blue

  /** The cyclic successor RED -> GREEN -> BLUE -> RED. */
  function Next(p: Phase): Phase
  {
    match p
    case Red => Green
    case Green => Blue
    case Blue => Red
  }

  datatype RGBColour = RGBColour(r: real, g: real, b: real)

  datatype Channel = R | G | B

  function Get(c: RGBColour, ch: Channel): real
  {
    match ch
    case R => c.r
    case G => c.g
    case B => c.b
  }

  /** The channel a phase ramps down, the one it ramps up, and the one it leaves alone. */
  function Falling(p: Phase): Channel
  {
    match p
    case Red => R
    case Green => G
    case Blue => B
  }

  function Rising(p: Phase): Channel
  {
    match p
    case Red => G
    case Green => B
    case Blue => R
  }

  function Idle(p: Phase): Channel
  {
    match p
    case Red => B
    case Green => R
    case Blue => G
  }

  /** `STEP` of `UpdateColours` (0.01f in the program). */
  const STEP: real := 0.01

  /** The state of a cycler: its phase and its colour. */
  datatype Scroller = Scroller(state: Phase, colour: RGBColour)

  /** A fresh `ScrollingColour`: phase RED, full red. */
  const Default: Scroller := Scroller(Red, RGBColour(1.0, 0.0, 0.0))

  /** One `UpdateColours` step: the falling channel loses STEP, the rising one
      gains STEP, the third is untouched, and the phase moves to its successor
      exactly when the falling channel has reached zero or below. */
  function Update(s: Scroller): (t: Scroller)
    ensures Get(t.colour, Falling(s.state)) == Get(s.colour, Falling(s.state)) - STEP
    ensures Get(t.colour, Rising(s.state)) == Get(s.colour, Rising(s.state)) + STEP
    ensures Get(t.colour, Idle(s.state)) == Get(s.colour, Idle(s.state))
    ensures t.state == if Get(t.colour, Falling(s.state)) <= 0.0 then Next(s.state) else s.state
  {
    var c := s.colour;
    match s.state
    case Red =>
      var c' := c.(r := c.r - STEP, g := c.g + STEP);
      Scroller(if c'.r <= 0.0 then Green else Red, c')
    case Green =>
      var c' := c.(g := c.g - STEP, b := c.b + STEP);
      Scroller(if c'.g <= 0.0 then Blue else Green, c')
    case Blue =>
      var c' := c.(b := c.b - STEP, r := c.r + STEP);
      Scroller(if c'.b <= 0.0 then Red else Blue, c')
  }

  /** `n` updates in a row. */
  function Iterate(s: Scroller, n: nat): Scroller
    decreases n
  {
    if n == 0 then s else Iterate(Update(s), n - 1)
  }

  /** The shape every reachable cycler state has: the channel being drained
      is still positive, the one being filled is above -STEP, and the idle one
      lies in (-STEP, 0]. Since nothing is clamped, a drained channel ends
      slightly below zero, but never by a full STEP. */
  predicate Bounded(s: Scroller)
  {
    && Get(s.colour, Falling(s.state)) > 0.0
    && Get(s.colour, Rising(s.state)) > -STEP
    && -STEP < Get(s.colour, Idle(s.state)) <= 0.0
  }

  lemma DefaultBounded()
    ensures Bounded(Default)
  {
  }

  /** Every update keeps the shape of `Bounded`. */
  lemma UpdateKeepsBounded(s: Scroller)
    requires Bounded(s)
    ensures Bounded(Update(s))
  {
  }

  /** Any number of updates keeps the shape of `Bounded`; in particular no
      channel ever drops to -STEP or below. */
  lemma {:induction false} IterateKeepsBounded(s: Scroller, n: nat)
    requires Bounded(s)
    ensures Bounded(Iterate(s, n))
    ensures var c := Iterate(s, n).colour; c.r > -STEP && c.g > -STEP && c.b > -STEP
    decreases n
  {
    if n > 0 {
      UpdateKeepsBounded(s);
      IterateKeepsBounded(Update(s), n - 1);
    } else {
      match s.state
      case Red =>
      case Green =>
      case Blue =>
    }
  }

  /** The phase stays put while the falling channel is being drained and
      moves to its successor on the update that drains it: if the falling
      channel `f` needs exactly `n` steps (`(n - 1) * STEP < f <= n * STEP`),
      the first `n - 1` updates keep the phase and the `n`-th advances it. */
  lemma {:induction false} AdvancesWhenDrained(s: Scroller, n: nat, k: nat)
    requires n >= 1
    requires (n - 1) as real * STEP < Get(s.colour, Falling(s.state)) <= n as real * STEP
    requires k <= n
    ensures Iterate(s, k).state == if k == n then Next(s.state) else s.state
    ensures k < n ==> Get(Iterate(s, k).colour, Falling(s.state)) == Get(s.colour, Falling(s.state)) - k as real * STEP
    decreases k
  {
    if k > 0 {
      var t := Update(s);
      if n == 1 {
        assert t.state == Next(s.state);
      } else {
        assert t.state == s.state;
        AdvancesWhenDrained(t, n - 1, k - 1);
      }
    }
  }

  /** A concrete update that leaves the drained channel below zero: from
      r = 0.005 in RED, r becomes -0.005 and the phase becomes GREEN. */
  lemma NoClampingExample()
    ensures Update(Scroller(Red, RGBColour(0.005, 0.995, 0.0)))
         == Scroller(Green, RGBColour(-0.005, 1.005, 0.0))
  {
  }

  /** `ScrollingColour`: the phase and colour are fields updated in place. */
  class ScrollingColour {
    var state: Phase
    var colour: RGBColour

    function Value(): Scroller
      reads this
    {
      Scroller(state, colour)
    }

    /** The default member initialisers: phase RED, colour (1, 0, 0). */
    constructor ()
      ensures Value() == Default
    {
      state := Red;
      colour := RGBColour(1.0, 0.0, 0.0);
    }

    /** `UpdateColours`: the switch on the phase, in place. */
    method UpdateColours()
      modifies this
      ensures Value() == Update(old(Value()))
    {
      match state
      case Red =>
        colour := colour.(r := colour.r - STEP);
        colour := colour.(g := colour.g + STEP);
        if colour.r <= 0.0 {
          state := Green;
        }
      case Green =>
        colour := colour.(g := colour.g - STEP);
        colour := colour.(b := colour.b + STEP);
        if colour.g <= 0.0 {
          state := Blue;
        }
      case Blue =>
        colour := colour.(b := colour.b - STEP);
        colour := colour.(r := colour.r + STEP);
        if colour.b <= 0.0 {
          state := Red;
        }
    }

    /** `getNext`: one update, then the colour after it. */
    method GetNext() returns (c: RGBColour)
      modifies this
      ensures Value() == Update(old(Value()))
      ensures c == colour
    {
      UpdateColours();
      c := GetCurrent();
    }

    /** `getCurrent`: reads the colour and changes nothing. */
    method GetCurrent() returns (c: RGBColour)
      ensures c == colour
    {
      c := colour;
    }
  }

  /** What a client can rely on: a fresh cycler is full red, `getCurrent`
      twice in a row gives the same colour, and `getNext` returns the colour
      of one update. */
  method ScrollingColourClient() returns (first: RGBColour, again: RGBColour, next: RGBColour)
    ensures first == again == RGBColour(1.0, 0.0, 0.0)
    ensures next == RGBColour(0.99, 0.01, 0.0)
  {
    var scroller := new ScrollingColour();
    first := scroller.GetCurrent();
    again := scroller.GetCurrent();
    next := scroller.GetNext();
  }
}
