/** Chapter 3, C++ (`Texture`): per-frame input handling. As in chapter 2,
    H/L and J/K move the quad through clamped offsets (`hOffset`, `vOffset`)
    and space flips it (`flip`) once per press; in addition UP and DOWN blend
    the two textures through the clamped `mixer`, which starts at 0.5.
    The function-local statics of the program are fields of the scene. */
module Texture {
  import opened Wrappers
  import opened Uniforms
  import Keyboard
  import Utils

  /** The keys `processInputs` polls, each down (`true`) or up this frame. */
  datatype Keys = Keys(escape: bool, h: bool, l: bool, j: bool, k: bool, space: bool, up: bool, down: bool)

  datatype Scene = Scene(
    shouldClose: bool,
    hOffset: real,
    vOffset: real,
    flip: int,
    spaceReleased: bool,
    mixer: real,
    log: seq<Uniform>)

  /** Every static at its initialiser; nothing sent yet. */
  const Initial := Scene(false, 0.0, 0.0, 1, true, 0.5, [])

  /** The increment of one movement or mixing key (0.02f). */
  const MOVE: real := 0.02

  /** `updateHorizontalOffset(increment)`. */
  function HorizontalOffset(s: Scene, increment: real): Scene
  {
    var offset := Utils.Clamp(s.hOffset + increment, -1.0, 1.0);
    s.(hOffset := offset, log := s.log + [Uniform("hOffset", FloatValue(offset))])
  }

  /** `updateVerticalOffset(increment)`. */
  function VerticalOffset(s: Scene, increment: real): Scene
  {
    var offset := Utils.Clamp(s.vOffset + increment, -1.0, 1.0);
    s.(vOffset := offset, log := s.log + [Uniform("vOffset", FloatValue(offset))])
  }

  /** `updateHorizontalFlip()`. */
  function Flipped(s: Scene): Scene
  {
    s.(flip := -s.flip, log := s.log + [Uniform("flip", IntValue(-s.flip))])
  }

  /** `updateTextureMix(increment)`. */
  function TextureMix(s: Scene, increment: real): Scene
  {
    var mixer := Utils.Clamp(s.mixer + increment, 0.0, 1.0);
    s.(mixer := mixer, log := s.log + [Uniform("mixer", FloatValue(mixer))])
  }

  /** The space-bar part of `processInputs()`. */
  function SpaceKey(s: Scene, pressed: bool): Scene
  {
    var s1 := if Keyboard.Fires(s.spaceReleased, pressed) then Flipped(s).(spaceReleased := false) else s;
    if !pressed then s1.(spaceReleased := true) else s1
  }

  /** The escape part of `processInputs()`: ask the window to close. */
  function EscapeKey(s: Scene, pressed: bool): Scene
  {
    if pressed then s.(shouldClose := true) else s
  }

  /** The movement part of `processInputs()`: H, L, J, K in that order. */
  function MovementKeys(s: Scene, keys: Keys): Scene
  {
    var s1 := if keys.h then HorizontalOffset(s, -MOVE) else s;
    var s2 := if keys.l then HorizontalOffset(s1, MOVE) else s1;
    var s3 := if keys.j then VerticalOffset(s2, -MOVE) else s2;
    if keys.k then VerticalOffset(s3, MOVE) else s3
  }

  /** The mixing part of `processInputs()`: UP before DOWN. */
  function MixKeys(s: Scene, keys: Keys): Scene
  {
    var s1 := if keys.up then TextureMix(s, MOVE) else s;
    if keys.down then TextureMix(s1, -MOVE) else s1
  }

  /** `processInputs()`: escape, movement, space, then mixing. */
  function Frame(s: Scene, keys: Keys): Scene
  {
    MixKeys(SpaceKey(MovementKeys(EscapeKey(s, keys.escape), keys), keys.space), keys)
  }

  function Run(s: Scene, frames: seq<Keys>): Scene
    decreases |frames|
  {
    if |frames| == 0 then s else Run(Frame(s, frames[0]), frames[1..])
  }

  function Spaces(frames: seq<Keys>): (spaces: seq<bool>)
    ensures |spaces| == |frames| && forall i :: 0 <= i < |frames| ==> spaces[i] == frames[i].space
  {
    seq(|frames|, i requires 0 <= i < |frames| => frames[i].space)
  }

  /** Offsets in [-1, 1], `mixer` in [0, 1], `flip` is +1 or -1, and the
      last values sent to the uniforms are the scene's own. */
  predicate Inv(s: Scene)
  {
    && -1.0 <= s.hOffset <= 1.0
    && -1.0 <= s.vOffset <= 1.0
    && 0.0 <= s.mixer <= 1.0
    && (s.flip == 1 || s.flip == -1)
    && Synced(s.log, "hOffset", FloatValue(s.hOffset))
    && Synced(s.log, "vOffset", FloatValue(s.vOffset))
    && Synced(s.log, "mixer", FloatValue(s.mixer))
    && Synced(s.log, "flip", IntValue(s.flip))
  }

  lemma InitialInv()
    ensures Inv(Initial)
  {
  }

  /** A write of `u` keeps every uniform other than `u.name` in sync. */
  lemma WriteKeepsOthers(s: Scene, t: Scene, u: Uniform)
    requires Inv(s) && t.log == s.log + [u]
    ensures u.name != "hOffset" ==> Synced(t.log, "hOffset", FloatValue(s.hOffset))
    ensures u.name != "vOffset" ==> Synced(t.log, "vOffset", FloatValue(s.vOffset))
    ensures u.name != "mixer" ==> Synced(t.log, "mixer", FloatValue(s.mixer))
    ensures u.name != "flip" ==> Synced(t.log, "flip", IntValue(s.flip))
    ensures Current(t.log, u.name) == Some(u.value)
  {
    CurrentAfterWrite(s.log, u, "hOffset");
    CurrentAfterWrite(s.log, u, "vOffset");
    CurrentAfterWrite(s.log, u, "mixer");
    CurrentAfterWrite(s.log, u, "flip");
    CurrentAfterWrite(s.log, u, u.name);
  }

  lemma HorizontalOffsetKeepsInv(s: Scene, increment: real)
    requires Inv(s)
    ensures Inv(HorizontalOffset(s, increment))
    ensures Current(HorizontalOffset(s, increment).log, "hOffset") == Some(FloatValue(HorizontalOffset(s, increment).hOffset))
  {
    var t := HorizontalOffset(s, increment);
    WriteKeepsOthers(s, t, Uniform("hOffset", FloatValue(t.hOffset)));
  }

  lemma VerticalOffsetKeepsInv(s: Scene, increment: real)
    requires Inv(s)
    ensures Inv(VerticalOffset(s, increment))
    ensures Current(VerticalOffset(s, increment).log, "vOffset") == Some(FloatValue(VerticalOffset(s, increment).vOffset))
  {
    var t := VerticalOffset(s, increment);
    WriteKeepsOthers(s, t, Uniform("vOffset", FloatValue(t.vOffset)));
  }

  lemma TextureMixKeepsInv(s: Scene, increment: real)
    requires Inv(s)
    ensures Inv(TextureMix(s, increment))
    ensures Current(TextureMix(s, increment).log, "mixer") == Some(FloatValue(TextureMix(s, increment).mixer))
  {
    var t := TextureMix(s, increment);
    WriteKeepsOthers(s, t, Uniform("mixer", FloatValue(t.mixer)));
  }

  lemma SpaceKeyKeepsInv(s: Scene, pressed: bool)
    requires Inv(s)
    ensures Inv(SpaceKey(s, pressed))
  {
    if Keyboard.Fires(s.spaceReleased, pressed) {
      var t := Flipped(s);
      WriteKeepsOthers(s, t, Uniform("flip", IntValue(t.flip)));
    }
  }

  lemma MovementKeysKeepInv(s: Scene, keys: Keys)
    requires Inv(s)
    ensures Inv(MovementKeys(s, keys))
  {
    var s1 := if keys.h then HorizontalOffset(s, -MOVE) else s;
    assert Inv(s1) by { if keys.h { HorizontalOffsetKeepsInv(s, -MOVE); } }
    var s2 := if keys.l then HorizontalOffset(s1, MOVE) else s1;
    assert Inv(s2) by { if keys.l { HorizontalOffsetKeepsInv(s1, MOVE); } }
    var s3 := if keys.j then VerticalOffset(s2, -MOVE) else s2;
    assert Inv(s3) by { if keys.j { VerticalOffsetKeepsInv(s2, -MOVE); } }
    if keys.k { VerticalOffsetKeepsInv(s3, MOVE); }
  }

  lemma MixKeysKeepInv(s: Scene, keys: Keys)
    requires Inv(s)
    ensures Inv(MixKeys(s, keys))
  {
    var s1 := if keys.up then TextureMix(s, MOVE) else s;
    assert Inv(s1) by { if keys.up { TextureMixKeepsInv(s, MOVE); } }
    if keys.down { TextureMixKeepsInv(s1, -MOVE); }
  }

  /** One frame keeps the invariant. */
  lemma FrameKeepsInv(s: Scene, keys: Keys)
    requires Inv(s)
    ensures Inv(Frame(s, keys))
  {
    var s1 := EscapeKey(s, keys.escape);
    var s2 := MovementKeys(s1, keys);
    MovementKeysKeepInv(s1, keys);
    var s3 := SpaceKey(s2, keys.space);
    SpaceKeyKeepsInv(s2, keys.space);
    MixKeysKeepInv(s3, keys);
  }

  /** Any run of frames from a reachable scene keeps the invariant. */
  lemma {:induction false} RunKeepsInv(s: Scene, frames: seq<Keys>)
    requires Inv(s)
    ensures Inv(Run(s, frames))
    decreases |frames|
  {
    if |frames| > 0 {
      FrameKeepsInv(s, frames[0]);
      RunKeepsInv(Frame(s, frames[0]), frames[1..]);
    }
  }

  /** Only the space bar touches `flip` and the latch, and the close flag
      follows escape. */
  lemma FrameFlip(s: Scene, keys: Keys)
    ensures Frame(s, keys).flip == if Keyboard.Fires(s.spaceReleased, keys.space) then -s.flip else s.flip
    ensures Frame(s, keys).spaceReleased == !keys.space
    ensures Frame(s, keys).shouldClose == (s.shouldClose || keys.escape)
  {
    var s1 := EscapeKey(s, keys.escape);
    MovementKeysShape(s1, keys);
    MixKeysShape(SpaceKey(MovementKeys(s1, keys), keys.space), keys);
  }

  /** The movement keys touch only the offsets and the uniform log. */
  lemma MovementKeysShape(s: Scene, keys: Keys)
    ensures var t := MovementKeys(s, keys);
            t == s.(hOffset := t.hOffset, vOffset := t.vOffset, log := t.log)
  {
  }

  /** The mixing keys touch only `mixer` and the uniform log. */
  lemma MixKeysShape(s: Scene, keys: Keys)
    ensures var t := MixKeys(s, keys);
            t == s.(mixer := t.mixer, log := t.log)
  {
  }

  /** `flip` changes sign once per press of the space bar. */
  lemma {:induction false} RunFlip(s: Scene, frames: seq<Keys>)
    ensures Run(s, frames).flip == Keyboard.SignAfter(s.flip, s.spaceReleased, Spaces(frames))
    decreases |frames|
  {
    if |frames| > 0 {
      var t := Frame(s, frames[0]);
      FrameFlip(s, frames[0]);
      assert Spaces(frames)[1..] == Spaces(frames[1..]);
      RunFlip(t, frames[1..]);
      Keyboard.SignAfterStep(s.flip, s.spaceReleased, Spaces(frames));
    }
  }

  /** UP is handled before DOWN: at full mix, with both held, UP is clamped
      away and DOWN then lowers the mix, so the frame ends at 0.98. */
  lemma UpBeforeDown(s: Scene)
    requires s.mixer == 1.0
    ensures var t := Frame(s, Keys(false, false, false, false, false, false, true, true));
            t.mixer == 0.98
            && t.log == s.log + [Uniform("mixer", FloatValue(1.0)), Uniform("mixer", FloatValue(0.98))]
  {
  }

  /** The scene object: the statics as fields, updated in place. */
  class TextureScene {
    var shouldClose: bool
    var hOffset: real
    var vOffset: real
    var flip: int
    var spaceReleased: bool
    var mixer: real
    var log: seq<Uniform>

    function State(): Scene
      reads this
    {
      Scene(shouldClose, hOffset, vOffset, flip, spaceReleased, mixer, log)
    }

    constructor ()
      ensures State() == Initial
    {
      shouldClose, hOffset, vOffset, flip, spaceReleased, mixer, log := false, 0.0, 0.0, 1, true, 0.5, [];
    }

    method UpdateHorizontalOffset(increment: real)
      modifies this
      ensures State() == HorizontalOffset(old(State()), increment)
    {
      hOffset := hOffset + increment;
      hOffset := Utils.Clamp(hOffset, -1.0, 1.0);
      log := log + [Uniform("hOffset", FloatValue(hOffset))];
    }

    method UpdateVerticalOffset(increment: real)
      modifies this
      ensures State() == VerticalOffset(old(State()), increment)
    {
      vOffset := vOffset + increment;
      vOffset := Utils.Clamp(vOffset, -1.0, 1.0);
      log := log + [Uniform("vOffset", FloatValue(vOffset))];
    }

    method UpdateHorizontalFlip()
      modifies this
      ensures State() == Flipped(old(State()))
    {
      flip := flip * -1;
      log := log + [Uniform("flip", IntValue(flip))];
    }

    method UpdateTextureMix(increment: real)
      modifies this
      ensures State() == TextureMix(old(State()), increment)
    {
      mixer := mixer + increment;
      mixer := Utils.Clamp(mixer, 0.0, 1.0);
      log := log + [Uniform("mixer", FloatValue(mixer))];
    }

    /** The "Triangle movement" block of `processInputs()`. */
    method MovementBlock(keys: Keys)
      modifies this
      ensures State() == MovementKeys(old(State()), keys)
    {
      if keys.h {
        UpdateHorizontalOffset(-MOVE);
      }
      if keys.l {
        UpdateHorizontalOffset(MOVE);
      }
      if keys.j {
        UpdateVerticalOffset(-MOVE);
      }
      if keys.k {
        UpdateVerticalOffset(MOVE);
      }
    }

    /** The "Horizontal flip" block of `processInputs()`, with its latch. */
    method FlipBlock(pressed: bool)
      modifies this
      ensures State() == SpaceKey(old(State()), pressed)
    {
      if pressed && spaceReleased {
        UpdateHorizontalFlip();
        spaceReleased := false;
      }
      if !pressed {
        spaceReleased := true;
      }
    }

    /** The "Set texture mixing" block of `processInputs()`. */
    method MixBlock(keys: Keys)
      modifies this
      ensures State() == MixKeys(old(State()), keys)
    {
      if keys.up {
        UpdateTextureMix(MOVE);
      }
      if keys.down {
        UpdateTextureMix(-MOVE);
      }
    }

    /** `processInputs()`: escape, then the three blocks in order. */
    method ProcessInputs(keys: Keys)
      modifies this
      ensures State() == Frame(old(State()), keys)
    {
      if keys.escape {
        shouldClose := true;
      }
      MovementBlock(keys);
      FlipBlock(keys.space);
      MixBlock(keys);
    }
  }
}
