/** Chapter 2, C++ (`Shading`): per-frame input handling. Escape closes the
    window, H/L and J/K move the triangle through two clamped offsets sent as
    the uniforms `hOffset` and `vOffset`, and space flips it through the
    uniform `flip`, once per press thanks to the `is_space_released` latch.
    The function-local statics of the program are fields of the scene. */
module Shading {
  import opened Wrappers
  import opened Uniforms
  import Keyboard
  import Utils

  /** The keys `processInputs` polls, each down (`true`) or up this frame. */
  datatype Keys = Keys(escape: bool, h: bool, l: bool, j: bool, k: bool, space: bool)

  /** Everything a frame can change: the window's close flag, the statics of
      the update helpers and of `processInputs`, and the uniform writes sent. */
  datatype Scene = Scene(
    shouldClose: bool,
    hOffset: real,
    vOffset: real,
    flip: int,
    spaceReleased: bool,
    log: seq<Uniform>)

  /** Every static at its initialiser; nothing sent yet. */
  const Initial := Scene(false, 0.0, 0.0, 1, true, [])

  /** The increment of one movement key (0.02f). */
  const MOVE: real := 0.02

  /** `updateHorizontalOffset(increment)`. */
  function HorizontalOffset(s: Scene, increment: real): Scene
  {
    var offset := Utils.Clamp(s.hOffset + increment, -1.0, 1.0);
    s.(hOffset := offset, log := s.log + [Uniform("hOffset", FloatValue(offset))])
  }

  /** `updateVerticalOffset(increment)`. */
  function VerticalOffset(s: Scene, increment: real): Scene
  {
    var offset := Utils.Clamp(s.vOffset + increment, -1.0, 1.0);
    s.(vOffset := offset, log := s.log + [Uniform("vOffset", FloatValue(offset))])
  }

  /** `updateFlip()`. */
  function Flipped(s: Scene): Scene
  {
    s.(flip := -s.flip, log := s.log + [Uniform("flip", IntValue(-s.flip))])
  }

  /** The space-bar part of `processInputs()`: flip on a fresh press, then
      re-arm the latch on a frame where space is up. */
  function SpaceKey(s: Scene, pressed: bool): Scene
  {
    var s1 := if Keyboard.Fires(s.spaceReleased, pressed) then Flipped(s).(spaceReleased := false) else s;
    if !pressed then s1.(spaceReleased := true) else s1
  }

  /** The escape key: raise the window's close flag. */
  function EscapeKey(s: Scene, pressed: bool): Scene
  {
    if pressed then s.(shouldClose := true) else s
  }

  /** The movement part of `processInputs()`: H, L, J, K in that order. */
  function MovementKeys(s: Scene, keys: Keys): Scene
  {
    var s1 := if keys.h then HorizontalOffset(s, -MOVE) else s;
    var s2 := if keys.l then HorizontalOffset(s1, MOVE) else s1;
    var s3 := if keys.j then VerticalOffset(s2, -MOVE) else s2;
    if keys.k then VerticalOffset(s3, MOVE) else s3
  }

  /** `processInputs()`: escape, the movement keys, then space. */
  function Frame(s: Scene, keys: Keys): Scene
  {
    SpaceKey(MovementKeys(EscapeKey(s, keys.escape), keys), keys.space)
  }

  /** The frames one after another. */
  function Run(s: Scene, frames: seq<Keys>): Scene
    decreases |frames|
  {
    if |frames| == 0 then s else Run(Frame(s, frames[0]), frames[1..])
  }

  function Spaces(frames: seq<Keys>): (spaces: seq<bool>)
    ensures |spaces| == |frames| && forall i :: 0 <= i < |frames| ==> spaces[i] == frames[i].space
  {
    seq(|frames|, i requires 0 <= i < |frames| => frames[i].space)
  }

  /** What every reachable scene satisfies: both offsets in [-1, 1], `flip`
      is +1 or -1, and the last value sent to each uniform is the scene's own. */
  predicate Inv(s: Scene)
  {
    && -1.0 <= s.hOffset <= 1.0
    && -1.0 <= s.vOffset <= 1.0
    && (s.flip == 1 || s.flip == -1)
    && Synced(s.log, "hOffset", FloatValue(s.hOffset))
    && Synced(s.log, "vOffset", FloatValue(s.vOffset))
    && Synced(s.log, "flip", IntValue(s.flip))
  }

  lemma InitialInv()
    ensures Inv(Initial)
  {
  }

  /** One frame keeps the invariant. */
  lemma FrameKeepsInv(s: Scene, keys: Keys)
    requires Inv(s)
    ensures Inv(Frame(s, keys))
  {
    var s1 := EscapeKey(s, keys.escape);
    MovementKeysKeepInv(s1, keys);
    SpaceKeyKeepsInv(MovementKeys(s1, keys), keys.space);
  }

  lemma MovementKeysKeepInv(s: Scene, keys: Keys)
    requires Inv(s)
    ensures Inv(MovementKeys(s, keys))
  {
    var s1 := if keys.h then HorizontalOffset(s, -MOVE) else s;
    assert Inv(s1) by { if keys.h { HorizontalOffsetKeepsInv(s, -MOVE); } }
    var s2 := if keys.l then HorizontalOffset(s1, MOVE) else s1;
    assert Inv(s2) by { if keys.l { HorizontalOffsetKeepsInv(s1, MOVE); } }
    var s3 := if keys.j then VerticalOffset(s2, -MOVE) else s2;
    assert Inv(s3) by { if keys.j { VerticalOffsetKeepsInv(s2, -MOVE); } }
    if keys.k { VerticalOffsetKeepsInv(s3, MOVE); }
  }

  /** The movement keys touch only the offsets and the uniform log, which
      they only append to. */
  lemma MovementKeysShape(s: Scene, keys: Keys)
    ensures var t := MovementKeys(s, keys);
            && t == s.(hOffset := t.hOffset, vOffset := t.vOffset, log := t.log)
            && s.log <= t.log
  {
  }

  /** A frame sets the close flag exactly when escape is down (or it was
      already set), leaves the latch equal to "space is up this frame", and
      only ever appends to the uniform log. */
  lemma FrameEffects(s: Scene, keys: Keys)
    ensures Frame(s, keys).shouldClose == (s.shouldClose || keys.escape)
    ensures Frame(s, keys).spaceReleased == !keys.space
    ensures s.log <= Frame(s, keys).log
  {
    var s1 := EscapeKey(s, keys.escape);
    MovementKeysShape(s1, keys);
    var s2 := MovementKeys(s1, keys);
    var t := SpaceKey(s2, keys.space);
    assert t.log[..|s2.log|] == s2.log;
  }

  lemma SpaceKeyKeepsInv(s: Scene, pressed: bool)
    requires Inv(s)
    ensures var t := SpaceKey(s, pressed);
            Inv(t)
            && t.spaceReleased == Keyboard.NextReleased(s.spaceReleased, pressed)
            && t.flip == if Keyboard.Fires(s.spaceReleased, pressed) then -s.flip else s.flip
  {
    if Keyboard.Fires(s.spaceReleased, pressed) { FlippedKeepsInv(s); }
  }

  lemma HorizontalOffsetKeepsInv(s: Scene, increment: real)
    requires Inv(s)
    ensures Inv(HorizontalOffset(s, increment))
    ensures Current(HorizontalOffset(s, increment).log, "hOffset") == Some(FloatValue(HorizontalOffset(s, increment).hOffset))
  {
    var offset := Utils.Clamp(s.hOffset + increment, -1.0, 1.0);
    var u := Uniform("hOffset", FloatValue(offset));
    CurrentAfterWrite(s.log, u, "hOffset");
    CurrentAfterWrite(s.log, u, "vOffset");
    CurrentAfterWrite(s.log, u, "flip");
  }

  lemma VerticalOffsetKeepsInv(s: Scene, increment: real)
    requires Inv(s)
    ensures Inv(VerticalOffset(s, increment))
    ensures Current(VerticalOffset(s, increment).log, "vOffset") == Some(FloatValue(VerticalOffset(s, increment).vOffset))
  {
    var offset := Utils.Clamp(s.vOffset + increment, -1.0, 1.0);
    var u := Uniform("vOffset", FloatValue(offset));
    CurrentAfterWrite(s.log, u, "hOffset");
    CurrentAfterWrite(s.log, u, "vOffset");
    CurrentAfterWrite(s.log, u, "flip");
  }

  lemma FlippedKeepsInv(s: Scene)
    requires Inv(s)
    ensures Inv(Flipped(s))
    ensures Current(Flipped(s).log, "flip") == Some(IntValue(Flipped(s).flip))
  {
    var u := Uniform("flip", IntValue(-s.flip));
    CurrentAfterWrite(s.log, u, "hOffset");
    CurrentAfterWrite(s.log, u, "vOffset");
    CurrentAfterWrite(s.log, u, "flip");
  }

  /** Any run of frames from a reachable scene keeps the invariant. */
  lemma {:induction false} RunKeepsInv(s: Scene, frames: seq<Keys>)
    requires Inv(s)
    ensures Inv(Run(s, frames))
    decreases |frames|
  {
    if |frames| > 0 {
      FrameKeepsInv(s, frames[0]);
      RunKeepsInv(Frame(s, frames[0]), frames[1..]);
    }
  }

  /** `flip` changes sign once per frame that fires the space latch, so after
      any run it is the start value times (-1) to the number of presses. */
  lemma {:induction false} RunFlip(s: Scene, frames: seq<Keys>)
    ensures Run(s, frames).flip == Keyboard.SignAfter(s.flip, s.spaceReleased, Spaces(frames))
    decreases |frames|
  {
    if |frames| > 0 {
      var t := Frame(s, frames[0]);
      FrameFlip(s, frames[0]);
      assert Spaces(frames)[1..] == Spaces(frames[1..]);
      RunFlip(t, frames[1..]);
      Keyboard.SignAfterStep(s.flip, s.spaceReleased, Spaces(frames));
    }
  }

  /** Only the space bar touches `flip` and the latch. */
  lemma FrameFlip(s: Scene, keys: Keys)
    ensures Frame(s, keys).flip == if Keyboard.Fires(s.spaceReleased, keys.space) then -s.flip else s.flip
    ensures Frame(s, keys).spaceReleased == Keyboard.NextReleased(s.spaceReleased, keys.space)
  {
    MovementKeysShape(EscapeKey(s, keys.escape), keys);
  }

  /** Keys act in a fixed order: with the triangle at the left edge and both
      H and L down, H is clamped away first and L then moves it in, so the
      frame ends at -0.98 after sending -1.0 and then -0.98. */
  lemma HBeforeL(s: Scene)
    requires s.hOffset == -1.0
    ensures var t := Frame(s, Keys(false, true, true, false, false, false));
            t.hOffset == -0.98
            && t.log == s.log + [Uniform("hOffset", FloatValue(-1.0)), Uniform("hOffset", FloatValue(-0.98))]
  {
  }

  /** The scene object: the statics as fields, updated in place. */
  class ShadingScene {
    var shouldClose: bool
    var hOffset: real
    var vOffset: real
    var flip: int
    var spaceReleased: bool
    var log: seq<Uniform>

    function State(): Scene
      reads this
    {
      Scene(shouldClose, hOffset, vOffset, flip, spaceReleased, log)
    }

    constructor ()
      ensures State() == Initial
    {
      shouldClose, hOffset, vOffset, flip, spaceReleased, log := false, 0.0, 0.0, 1, true, [];
    }

    method UpdateHorizontalOffset(increment: real)
      modifies this
      ensures State() == HorizontalOffset(old(State()), increment)
    {
      hOffset := hOffset + increment;
      hOffset := Utils.Clamp(hOffset, -1.0, 1.0);
      log := log + [Uniform("hOffset", FloatValue(hOffset))];
    }

    method UpdateVerticalOffset(increment: real)
      modifies this
      ensures State() == VerticalOffset(old(State()), increment)
    {
      vOffset := vOffset + increment;
      vOffset := Utils.Clamp(vOffset, -1.0, 1.0);
      log := log + [Uniform("vOffset", FloatValue(vOffset))];
    }

    method UpdateFlip()
      modifies this
      ensures State() == Flipped(old(State()))
    {
      flip := flip * -1;
      log := log + [Uniform("flip", IntValue(flip))];
    }

    method ProcessInputs(keys: Keys)
      modifies this
      ensures State() == Frame(old(State()), keys)
    {
      if keys.escape {
        shouldClose := true;
      }
      MovementBlock(keys);
      SpaceBlock(keys.space);
    }

    /** The movement part of `processInputs()`. */
    method MovementBlock(keys: Keys)
      modifies this
      ensures State() == MovementKeys(old(State()), keys)
    {
      if keys.h {
        UpdateHorizontalOffset(-MOVE);
      }
      if keys.l {
        UpdateHorizontalOffset(MOVE);
      }
      if keys.j {
        UpdateVerticalOffset(-MOVE);
      }
      if keys.k {
        UpdateVerticalOffset(MOVE);
      }
    }

    /** The space-bar part of `processInputs()`: the latch and the flip. */
    method SpaceBlock(pressed: bool)
      modifies this
      ensures State() == SpaceKey(old(State()), pressed)
    {
      if pressed && spaceReleased {
        UpdateFlip();
        spaceReleased := false;
      }
      if !pressed {
        spaceReleased := true;
      }
    }
  }
}
