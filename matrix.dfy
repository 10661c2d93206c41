/** Chapter 4, C++ (`Matrix`): per-frame input handling. H/L and J/K move
    the quad; the two offset accumulators are NOT clamped, only the
    translation derived from them is, so an accumulator can wind up past the
    edge while the quad stays pinned there. H and L also set the horizontal
    texture flip, space negates the vertical one once per press, UP/DOWN
    blend the textures, and EQUAL/MINUS and LEFT/RIGHT change the unbounded
    scale and angle. Statics and members of the program are fields here. */
module Matrix {
  import opened Wrappers
  import opened Uniforms
  import Keyboard
  import Utils

  /** The keys `processInputs` polls, each down (`true`) or up this frame. */
  datatype Keys = Keys(
    escape: bool, h: bool, l: bool, j: bool, k: bool, space: bool,
    up: bool, down: bool, equal: bool, minus: bool, left: bool, right: bool)

  datatype Vec3 = Vec3(x: real, y: real, z: real)
  datatype Vec2 = Vec2(x: real, y: real)

  /** The close flag, the statics of the helpers (`hOffset` and `vOffset` are
      the two `current_offset` accumulators), the members `translation`,
      `flips`, `scale`, `angle`, and the uniform writes sent. */
  datatype Scene = Scene(
    shouldClose: bool,
    hOffset: real,
    vOffset: real,
    translation: Vec3,
    flips: Vec2,
    spaceReleased: bool,
    mixer: real,
    scale: real,
    angle: real,
    log: seq<Uniform>)

  /** Every static and member at its initialiser; nothing sent yet. */
  const Initial := Scene(false, 0.0, 0.0, Vec3(0.0, 0.0, 0.0), Vec2(1.0, 1.0), true, 0.5, 1.0, 0.0, [])

  /** The increment of a movement, mixing or scaling key (0.02f). */
  const MOVE: real := 0.02

  /** The increment of a rotation key, in degrees (2.0f). */
  const TURN: real := 2.0

  /** `updateHorizontalOffset(increment)`: the accumulator moves freely,
      `translation.x` gets its clamped value. */
  function HorizontalOffset(s: Scene, increment: real): Scene
  {
    var offset := s.hOffset + increment;
    s.(hOffset := offset, translation := s.translation.(x := Utils.Clamp(offset, -1.0, 1.0)))
  }

  /** `updateVerticalOffset(increment)`. */
  function VerticalOffset(s: Scene, increment: real): Scene
  {
    var offset := s.vOffset + increment;
    s.(vOffset := offset, translation := s.translation.(y := Utils.Clamp(offset, -1.0, 1.0)))
  }

  /** `updateTextureMix(increment)`. */
  function TextureMix(s: Scene, increment: real): Scene
  {
    var mixer := Utils.Clamp(s.mixer + increment, 0.0, 1.0);
    s.(mixer := mixer, log := s.log + [Uniform("mixer", FloatValue(mixer))])
  }

  /** `updateMatrixScale(increment)`. */
  function MatrixScale(s: Scene, increment: real): Scene
  {
    s.(scale := s.scale + increment)
  }

  /** `updateMatrixRotation(increment)`. */
  function MatrixRotation(s: Scene, increment: real): Scene
  {
    s.(angle := s.angle + increment)
  }

  function EscapeKey(s: Scene, pressed: bool): Scene
  {
    if pressed then s.(shouldClose := true) else s
  }

  /** The "Translation vector" block: H, L, J, K in that order; H and L also
      set the horizontal flip. */
  function TranslationKeys(s: Scene, keys: Keys): Scene
  {
    var s1 := if keys.h then HorizontalOffset(s, -MOVE).(flips := s.flips.(x := -1.0)) else s;
    var s2 := if keys.l then HorizontalOffset(s1, MOVE).(flips := s1.flips.(x := 1.0)) else s1;
    var s3 := if keys.j then VerticalOffset(s2, -MOVE) else s2;
    if keys.k then VerticalOffset(s3, MOVE) else s3
  }

  /** The "Horizontal flip" block: negate `flips.y` on a fresh press. */
  function SpaceKey(s: Scene, pressed: bool): Scene
  {
    var s1 := if Keyboard.Fires(s.spaceReleased, pressed)
              then s.(flips := s.flips.(y := -s.flips.y), spaceReleased := false)
              else s;
    if !pressed then s1.(spaceReleased := true) else s1
  }

  /** The "Set texture mixing" block: UP before DOWN. */
  function MixKeys(s: Scene, keys: Keys): Scene
  {
    var s1 := if keys.up then TextureMix(s, MOVE) else s;
    if keys.down then TextureMix(s1, -MOVE) else s1
  }

  /** The "Transformation matrix" block: EQUAL, MINUS, LEFT, RIGHT. */
  function TransformKeys(s: Scene, keys: Keys): Scene
  {
    var s1 := if keys.equal then MatrixScale(s, MOVE) else s;
    var s2 := if keys.minus then MatrixScale(s1, -MOVE) else s1;
    var s3 := if keys.left then MatrixRotation(s2, TURN) else s2;
    if keys.right then MatrixRotation(s3, -TURN) else s3
  }

  /** `processInputs()`: escape, then the four blocks in order. */
  function Frame(s: Scene, keys: Keys): Scene
  {
    TransformKeys(MixKeys(SpaceKey(TranslationKeys(EscapeKey(s, keys.escape), keys), keys.space), keys), keys)
  }

  function Run(s: Scene, frames: seq<Keys>): Scene
    decreases |frames|
  {
    if |frames| == 0 then s else Run(Frame(s, frames[0]), frames[1..])
  }

  function Spaces(frames: seq<Keys>): (spaces: seq<bool>)
    ensures |spaces| == |frames| && forall i :: 0 <= i < |frames| ==> spaces[i] == frames[i].space
  {
    seq(|frames|, i requires 0 <= i < |frames| => frames[i].space)
  }

  /** The same keys held for `n` frames. */
  function Hold(keys: Keys, n: nat): (frames: seq<Keys>)
    ensures |frames| == n && forall i :: 0 <= i < n ==> frames[i] == keys
  {
    seq(n, i => keys)
  }

  /** The translation is the clamp of the accumulators (so it lies in
      [-1, 1]) and has z = 0, both flips are +1 or -1, `mixer` is in [0, 1]
      and the last `mixer` sent is the scene's value. */
  predicate Inv(s: Scene)
  {
    && s.translation == Vec3(Utils.Clamp(s.hOffset, -1.0, 1.0), Utils.Clamp(s.vOffset, -1.0, 1.0), 0.0)
    && -1.0 <= s.translation.x <= 1.0
    && -1.0 <= s.translation.y <= 1.0
    && (s.flips.x == 1.0 || s.flips.x == -1.0)
    && (s.flips.y == 1.0 || s.flips.y == -1.0)
    && 0.0 <= s.mixer <= 1.0
    && Synced(s.log, "mixer", FloatValue(s.mixer))
  }

  lemma InitialInv()
    ensures Inv(Initial)
  {
  }

  lemma TextureMixKeepsInv(s: Scene, increment: real)
    requires Inv(s)
    ensures Inv(TextureMix(s, increment))
    ensures Current(TextureMix(s, increment).log, "mixer") == Some(FloatValue(TextureMix(s, increment).mixer))
  {
    var t := TextureMix(s, increment);
    CurrentAfterWrite(s.log, Uniform("mixer", FloatValue(t.mixer)), "mixer");
  }

  lemma MixKeysKeepInv(s: Scene, keys: Keys)
    requires Inv(s)
    ensures Inv(MixKeys(s, keys))
  {
    var s1 := if keys.up then TextureMix(s, MOVE) else s;
    assert Inv(s1) by { if keys.up { TextureMixKeepsInv(s, MOVE); } }
    if keys.down { TextureMixKeepsInv(s1, -MOVE); }
  }

  /** One frame keeps the invariant. */
  lemma FrameKeepsInv(s: Scene, keys: Keys)
    requires Inv(s)
    ensures Inv(Frame(s, keys))
  {
    var s1 := EscapeKey(s, keys.escape);
    assert Inv(s1);
    var s2 := TranslationKeys(s1, keys);
    TranslationKeysKeepInv(s1, keys);
    var s3 := SpaceKey(s2, keys.space);
    SpaceKeyKeepsInv(s2, keys.space);
    var s4 := MixKeys(s3, keys);
    MixKeysKeepInv(s3, keys);
    TransformKeysKeepInv(s4, keys);
    assert Frame(s, keys) == TransformKeys(s4, keys);
  }

  lemma SpaceKeyKeepsInv(s: Scene, pressed: bool)
    requires Inv(s)
    ensures Inv(SpaceKey(s, pressed))
  {
    SpaceKeyShape(s, pressed);
  }

  lemma TransformKeysKeepInv(s: Scene, keys: Keys)
    requires Inv(s)
    ensures Inv(TransformKeys(s, keys))
  {
    TransformKeysOnlyTransforms(s, keys);
  }

  lemma TranslationKeysKeepInv(s: Scene, keys: Keys)
    requires Inv(s)
    ensures Inv(TranslationKeys(s, keys))
  {
    var s1 := if keys.h then HorizontalOffset(s, -MOVE).(flips := s.flips.(x := -1.0)) else s;
    assert Inv(s1);
    var s2 := if keys.l then HorizontalOffset(s1, MOVE).(flips := s1.flips.(x := 1.0)) else s1;
    assert Inv(s2);
    var s3 := if keys.j then VerticalOffset(s2, -MOVE) else s2;
    assert Inv(s3);
  }

  /** Any run of frames from a reachable scene keeps the invariant. */
  lemma {:induction false} RunKeepsInv(s: Scene, frames: seq<Keys>)
    requires Inv(s)
    ensures Inv(Run(s, frames))
    decreases |frames|
  {
    if |frames| > 0 {
      FrameKeepsInv(s, frames[0]);
      RunKeepsInv(Frame(s, frames[0]), frames[1..]);
    }
  }

  /** The horizontal flip follows the last of H and L held this frame, so L
      wins when both are down; the vertical flip and the latch follow space;
      the close flag follows escape. */
  lemma FrameFlips(s: Scene, keys: Keys)
    ensures Frame(s, keys).flips.x == if keys.l then 1.0 else if keys.h then -1.0 else s.flips.x
    ensures Frame(s, keys).flips.y == if Keyboard.Fires(s.spaceReleased, keys.space) then -s.flips.y else s.flips.y
    ensures Frame(s, keys).spaceReleased == !keys.space
    ensures Frame(s, keys).shouldClose == (s.shouldClose || keys.escape)
  {
    var s1 := EscapeKey(s, keys.escape);
    var s2 := TranslationKeys(s1, keys);
    TranslationKeysShape(s1, keys);
    var s3 := SpaceKey(s2, keys.space);
    SpaceKeyShape(s2, keys.space);
    var s4 := MixKeys(s3, keys);
    MixKeysOnlyMix(s3, keys);
    TransformKeysOnlyTransforms(s4, keys);
    assert Frame(s, keys) == TransformKeys(s4, keys);
  }

  /** The "Translation vector" block touches only the accumulators, the
      translation and `flips.x`, which ends as set by the last of H and L. */
  lemma TranslationKeysShape(s: Scene, keys: Keys)
    ensures var t := TranslationKeys(s, keys);
            t == s.(hOffset := t.hOffset, vOffset := t.vOffset, translation := t.translation,
                    flips := s.flips.(x := if keys.l then 1.0 else if keys.h then -1.0 else s.flips.x))
  {
  }

  /** The "Horizontal flip" block touches only `flips.y` and the latch. */
  lemma SpaceKeyShape(s: Scene, pressed: bool)
    ensures SpaceKey(s, pressed)
         == s.(flips := s.flips.(y := if Keyboard.Fires(s.spaceReleased, pressed) then -s.flips.y else s.flips.y),
               spaceReleased := !pressed)
  {
  }

  /** The "Set texture mixing" block touches only `mixer` and the log. */
  lemma MixKeysOnlyMix(s: Scene, keys: Keys)
    ensures var t := MixKeys(s, keys); t == s.(mixer := t.mixer, log := t.log)
  {
  }

  /** The "Transformation matrix" block touches only `scale` and `angle`. */
  lemma TransformKeysOnlyTransforms(s: Scene, keys: Keys)
    ensures TransformKeys(s, keys)
         == s.(scale := s.scale + (if keys.equal then MOVE else 0.0) - (if keys.minus then MOVE else 0.0),
               angle := s.angle + (if keys.left then TURN else 0.0) - (if keys.right then TURN else 0.0))
  {
  }

  /** The vertical flip changes sign once per press of the space bar. */
  lemma {:induction false} RunFlipsY(s: Scene, frames: seq<Keys>)
    ensures Run(s, frames).flips.y
         == if Keyboard.Toggles(s.spaceReleased, Spaces(frames)) % 2 == 0 then s.flips.y else -s.flips.y
    decreases |frames|
  {
    if |frames| > 0 {
      var t := Frame(s, frames[0]);
      FrameFlips(s, frames[0]);
      assert Spaces(frames)[1..] == Spaces(frames[1..]);
      RunFlipsY(t, frames[1..]);
    }
  }

  /** Scale and angle are plain accumulators: a frame adds 0.02 for EQUAL,
      subtracts 0.02 for MINUS, adds 2 degrees for LEFT and subtracts 2 for RIGHT. */
  lemma FrameTransform(s: Scene, keys: Keys)
    ensures Frame(s, keys).scale
         == s.scale + (if keys.equal then MOVE else 0.0) - (if keys.minus then MOVE else 0.0)
    ensures Frame(s, keys).angle
         == s.angle + (if keys.left then TURN else 0.0) - (if keys.right then TURN else 0.0)
  {
    var s4 := MixKeys(SpaceKey(TranslationKeys(EscapeKey(s, keys.escape), keys), keys.space), keys);
    assert s4.scale == s.scale && s4.angle == s.angle;
    TransformKeysOnlyTransforms(s4, keys);
    assert Frame(s, keys) == TransformKeys(s4, keys);
  }

  /** Holding only L for `n` frames adds n * 0.02 to the horizontal
      accumulator, without bound, while the translation stays its clamp. */
  lemma {:induction false} HoldingL(s: Scene, n: nat)
    ensures var keys := Keys(false, false, true, false, false, false, false, false, false, false, false, false);
            var t := Run(s, Hold(keys, n));
            t.hOffset == s.hOffset + n as real * MOVE
            && (n > 0 ==> t.translation.x == Utils.Clamp(t.hOffset, -1.0, 1.0))
    decreases n
  {
    var keys := Keys(false, false, true, false, false, false, false, false, false, false, false, false);
    if n > 0 {
      assert Hold(keys, n)[1..] == Hold(keys, n - 1);
      HoldingL(Frame(s, keys), n - 1);
    }
  }

  /** Wind-up: from the start, 60 frames of L take the accumulator to 1.2
      while the quad sits at the right edge, and one frame of H afterwards
      leaves it there (the accumulator is only back to 1.18). */
  lemma WindUp()
    ensures var right := Keys(false, false, true, false, false, false, false, false, false, false, false, false);
            var left := Keys(false, true, false, false, false, false, false, false, false, false, false, false);
            var t := Run(Initial, Hold(right, 60));
            t.hOffset == 1.2 && t.translation.x == 1.0
            && Frame(t, left).hOffset == 1.18 && Frame(t, left).translation.x == 1.0
  {
    HoldingL(Initial, 60);
  }

  /** Holding only MINUS for `n` frames lowers the scale by n * 0.02 with no
      lower bound. */
  lemma {:induction false} HoldingMinus(s: Scene, n: nat)
    ensures var keys := Keys(false, false, false, false, false, false, false, false, false, true, false, false);
            Run(s, Hold(keys, n)).scale == s.scale - n as real * MOVE
    decreases n
  {
    var keys := Keys(false, false, false, false, false, false, false, false, false, true, false, false);
    if n > 0 {
      assert Hold(keys, n)[1..] == Hold(keys, n - 1);
      FrameTransform(s, keys);
      HoldingMinus(Frame(s, keys), n - 1);
    }
  }

  /** The scale reaches zero after 50 frames of MINUS from the start, and
      turns negative on the next one. */
  lemma ScaleCrossesZero()
    ensures var keys := Keys(false, false, false, false, false, false, false, false, false, true, false, false);
            Run(Initial, Hold(keys, 50)).scale == 0.0 && Run(Initial, Hold(keys, 51)).scale < 0.0
  {
    HoldingMinus(Initial, 50);
    HoldingMinus(Initial, 51);
  }

  /** The `Matrix` application: its statics and members as fields. */
  class MatrixScene {
    var shouldClose: bool
    var hOffset: real
    var vOffset: real
    var translation: Vec3
    var flips: Vec2
    var spaceReleased: bool
    var mixer: real
    var scale: real
    var angle: real
    var log: seq<Uniform>

    function State(): Scene
      reads this
    {
      Scene(shouldClose, hOffset, vOffset, translation, flips, spaceReleased, mixer, scale, angle, log)
    }

    constructor ()
      ensures State() == Initial
    {
      shouldClose, hOffset, vOffset := false, 0.0, 0.0;
      translation, flips, spaceReleased := Vec3(0.0, 0.0, 0.0), Vec2(1.0, 1.0), true;
      mixer, scale, angle, log := 0.5, 1.0, 0.0, [];
    }

    method UpdateHorizontalOffset(increment: real)
      modifies this
      ensures State() == HorizontalOffset(old(State()), increment)
    {
      hOffset := hOffset + increment;
      translation := translation.(x := Utils.Clamp(hOffset, -1.0, 1.0));
    }

    method UpdateVerticalOffset(increment: real)
      modifies this
      ensures State() == VerticalOffset(old(State()), increment)
    {
      vOffset := vOffset + increment;
      translation := translation.(y := Utils.Clamp(vOffset, -1.0, 1.0));
    }

    method UpdateTextureMix(increment: real)
      modifies this
      ensures State() == TextureMix(old(State()), increment)
    {
      mixer := mixer + increment;
      mixer := Utils.Clamp(mixer, 0.0, 1.0);
      log := log + [Uniform("mixer", FloatValue(mixer))];
    }

    method UpdateMatrixScale(increment: real)
      modifies this
      ensures State() == MatrixScale(old(State()), increment)
    {
      scale := scale + increment;
    }

    method UpdateMatrixRotation(increment: real)
      modifies this
      ensures State() == MatrixRotation(old(State()), increment)
    {
      angle := angle + increment;
    }

    /** The "Translation vector" block of `processInputs()`. */
    method TranslationBlock(keys: Keys)
      modifies this
      ensures State() == TranslationKeys(old(State()), keys)
    {
      if keys.h {
        UpdateHorizontalOffset(-MOVE);
        flips := flips.(x := -1.0);
      }
      if keys.l {
        UpdateHorizontalOffset(MOVE);
        flips := flips.(x := 1.0);
      }
      if keys.j {
        UpdateVerticalOffset(-MOVE);
      }
      if keys.k {
        UpdateVerticalOffset(MOVE);
      }
    }

    /** The "Horizontal flip" block, with its latch. */
    method FlipBlock(pressed: bool)
      modifies this
      ensures State() == SpaceKey(old(State()), pressed)
    {
      if pressed && spaceReleased {
        flips := flips.(y := flips.y * -1.0);
        spaceReleased := false;
      }
      if !pressed {
        spaceReleased := true;
      }
    }

    /** The "Set texture mixing" block. */
    method MixBlock(keys: Keys)
      modifies this
      ensures State() == MixKeys(old(State()), keys)
    {
      if keys.up {
        UpdateTextureMix(MOVE);
      }
      if keys.down {
        UpdateTextureMix(-MOVE);
      }
    }

    /** The "Transformation matrix" block. */
    method TransformBlock(keys: Keys)
      modifies this
      ensures State() == TransformKeys(old(State()), keys)
    {
      if keys.equal {
        UpdateMatrixScale(MOVE);
      }
      if keys.minus {
        UpdateMatrixScale(-MOVE);
      }
      if keys.left {
        UpdateMatrixRotation(TURN);
      }
      if keys.right {
        UpdateMatrixRotation(-TURN);
      }
    }

    /** `processInputs()`: escape, then the four blocks in order. */
    method ProcessInputs(keys: Keys)
      modifies this
      ensures State() == Frame(old(State()), keys)
    {
      if keys.escape {
        shouldClose := true;
      }
      TranslationBlock(keys);
      FlipBlock(keys.space);
      MixBlock(keys);
      TransformBlock(keys);
    }
  }
}
