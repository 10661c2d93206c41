/** Chapter 2, C (`shading.c`): per-frame input handling. RIGHT and LEFT
    move the triangle through one clamped offset sent as the uniform
    `offset`; DOWN and UP write the uniform `flip` as -1 and 1. The flip is
    a level set, not a toggle: nothing on the CPU side remembers it, and UP,
    handled last, wins when both are held. The function-static offset of
    `updateOffset` is a field of the program. */
module CShading {
  import opened Wrappers
  import opened Uniforms
  import CUtils

  /** The keys `processInputs` polls, each down (`true`) or up this frame. */
  datatype Keys = Keys(escape: bool, right: bool, left: bool, down: bool, up: bool)

  /** The window's close flag, the static `current_offset`, and the uniform writes sent. */
  datatype Scene = Scene(shouldClose: bool, offset: real, log: seq<Uniform>)

  const Initial := Scene(false, 0.0, [])

  /** The increment of one arrow key (0.02f). */
  const MOVE: real := 0.02

  /** `updateOffset(increment)`. */
  function Offset(s: Scene, increment: real): Scene
  {
    var offset := CUtils.ClampMacro(s.offset + increment, -1.0, 1.0);
    s.(offset := offset, log := s.log + [Uniform("offset", FloatValue(offset))])
  }

  /** `shader_setInt(shader, "flip", value)`. */
  function SetFlip(s: Scene, value: int): Scene
  {
    s.(log := s.log + [Uniform("flip", IntValue(value))])
  }

  /** The escape key: raise the window's close flag. */
  function EscapeKey(s: Scene, pressed: bool): Scene
  {
    if pressed then s.(shouldClose := true) else s
  }

  /** RIGHT then LEFT: move the triangle. */
  function ArrowKeys(s: Scene, keys: Keys): Scene
  {
    var s1 := if keys.right then Offset(s, MOVE) else s;
    if keys.left then Offset(s1, -MOVE) else s1
  }

  /** DOWN then UP: write the flip. */
  function FlipKeys(s: Scene, keys: Keys): Scene
  {
    var s1 := if keys.down then SetFlip(s, -1) else s;
    if keys.up then SetFlip(s1, 1) else s1
  }

  /** `processInputs(window)`: escape, RIGHT, LEFT, DOWN, UP in that order. */
  function Frame(s: Scene, keys: Keys): Scene
  {
    FlipKeys(ArrowKeys(EscapeKey(s, keys.escape), keys), keys)
  }

  function Run(s: Scene, frames: seq<Keys>): Scene
    decreases |frames|
  {
    if |frames| == 0 then s else Run(Frame(s, frames[0]), frames[1..])
  }

  /** The offset lies in [-1, 1] and is the last value sent as `offset`;
      the last `flip` sent, if any, is +1 or -1. */
  predicate Inv(s: Scene)
  {
    && -1.0 <= s.offset <= 1.0
    && Synced(s.log, "offset", FloatValue(s.offset))
    && (Current(s.log, "flip") == None || Current(s.log, "flip") == Some(IntValue(1))
        || Current(s.log, "flip") == Some(IntValue(-1)))
  }

  lemma InitialInv()
    ensures Inv(Initial)
  {
  }

  lemma OffsetKeepsInv(s: Scene, increment: real)
    requires Inv(s)
    ensures Inv(Offset(s, increment))
    ensures Current(Offset(s, increment).log, "offset") == Some(FloatValue(Offset(s, increment).offset))
  {
    var offset := CUtils.ClampMacro(s.offset + increment, -1.0, 1.0);
    CUtils.ClampMacroInRange(s.offset + increment, -1.0, 1.0);
    var u := Uniform("offset", FloatValue(offset));
    CurrentAfterWrite(s.log, u, "offset");
    CurrentAfterWrite(s.log, u, "flip");
  }

  lemma SetFlipKeepsInv(s: Scene, value: int)
    requires Inv(s) && (value == 1 || value == -1)
    ensures Inv(SetFlip(s, value))
  {
    var u := Uniform("flip", IntValue(value));
    CurrentAfterWrite(s.log, u, "offset");
    CurrentAfterWrite(s.log, u, "flip");
  }

  /** One frame keeps the invariant. */
  lemma FrameKeepsInv(s: Scene, keys: Keys)
    requires Inv(s)
    ensures Inv(Frame(s, keys))
  {
    var s1 := EscapeKey(s, keys.escape);
    var s2 := if keys.right then Offset(s1, MOVE) else s1;
    assert Inv(s2) by { if keys.right { OffsetKeepsInv(s1, MOVE); } }
    var s3 := ArrowKeys(s1, keys);
    assert Inv(s3) by { if keys.left { OffsetKeepsInv(s2, -MOVE); } }
    var s4 := if keys.down then SetFlip(s3, -1) else s3;
    assert Inv(s4) by { if keys.down { SetFlipKeepsInv(s3, -1); } }
    if keys.up { SetFlipKeepsInv(s4, 1); }
  }

  /** Any run of frames from a reachable scene keeps the invariant. */
  lemma {:induction false} RunKeepsInv(s: Scene, frames: seq<Keys>)
    requires Inv(s)
    ensures Inv(Run(s, frames))
    decreases |frames|
  {
    if |frames| > 0 {
      FrameKeepsInv(s, frames[0]);
      RunKeepsInv(Frame(s, frames[0]), frames[1..]);
    }
  }

  /** After a frame the last `flip` sent is 1 if UP was held, else -1 if DOWN
      was held, else what it was: a level set in which UP wins; escape sets
      the close flag. */
  lemma FrameFlip(s: Scene, keys: Keys)
    ensures Current(Frame(s, keys).log, "flip")
         == if keys.up then Some(IntValue(1)) else if keys.down then Some(IntValue(-1)) else Current(s.log, "flip")
    ensures Frame(s, keys).shouldClose == (s.shouldClose || keys.escape)
  {
    var s1 := EscapeKey(s, keys.escape);
    ArrowKeysKeepFlip(s1, keys);
    var s3 := ArrowKeys(s1, keys);
    var s4 := if keys.down then SetFlip(s3, -1) else s3;
    if keys.down {
      CurrentAfterWrite(s3.log, Uniform("flip", IntValue(-1)), "flip");
    }
    if keys.up {
      CurrentAfterWrite(s4.log, Uniform("flip", IntValue(1)), "flip");
    }
  }

  /** Moving the triangle leaves the close flag and the last `flip` sent alone. */
  lemma ArrowKeysKeepFlip(s: Scene, keys: Keys)
    ensures ArrowKeys(s, keys).shouldClose == s.shouldClose
    ensures Current(ArrowKeys(s, keys).log, "flip") == Current(s.log, "flip")
  {
    var s1 := if keys.right then Offset(s, MOVE) else s;
    if keys.right {
      CurrentAfterWrite(s.log, Uniform("offset", FloatValue(s1.offset)), "flip");
    }
    if keys.left {
      CurrentAfterWrite(s1.log, Uniform("offset", FloatValue(ArrowKeys(s, keys).offset)), "flip");
    }
  }

  /** RIGHT is handled before LEFT: at the right edge with both held, RIGHT
      is clamped away and LEFT then moves the triangle in, to 0.98. */
  lemma RightBeforeLeft(s: Scene)
    requires s.offset == 1.0
    ensures var t := Frame(s, Keys(false, true, true, false, false));
            t.offset == 0.98
            && t.log == s.log + [Uniform("offset", FloatValue(1.0)), Uniform("offset", FloatValue(0.98))]
  {
  }

  /** The program's input state: the close flag, the function-static offset and
      the uniform writes. */
  class ShadingProgram {
    var shouldClose: bool
    var offset: real
    var log: seq<Uniform>

    function State(): Scene
      reads this
    {
      Scene(shouldClose, offset, log)
    }

    constructor ()
      ensures State() == Initial
    {
      shouldClose, offset, log := false, 0.0, [];
    }

    method UpdateOffset(increment: real)
      modifies this
      ensures State() == Offset(old(State()), increment)
    {
      offset := offset + increment;
      offset := CUtils.ClampMacro(offset, -1.0, 1.0);
      log := log + [Uniform("offset", FloatValue(offset))];
    }

    method ProcessInputs(keys: Keys)
      modifies this
      ensures State() == Frame(old(State()), keys)
    {
      if keys.escape {
        shouldClose := true;
      }
      ArrowBlock(keys);
      FlipBlock(keys);
    }

    /** RIGHT and LEFT. */
    method ArrowBlock(keys: Keys)
      modifies this
      ensures State() == ArrowKeys(old(State()), keys)
    {
      if keys.right {
        UpdateOffset(MOVE);
      }
      if keys.left {
        UpdateOffset(-MOVE);
      }
    }

    /** DOWN and UP: `shader_setInt(shader, "flip", ±1)`. */
    method FlipBlock(keys: Keys)
      modifies this
      ensures State() == FlipKeys(old(State()), keys)
    {
      if keys.down {
        log := log + [Uniform("flip", IntValue(-1))];
      }
      if keys.up {
        log := log + [Uniform("flip", IntValue(1))];
      }
    }
  }
}
