/** Chapter 3, C (`texture.c`): the NULL guard of `loadImage` and the
    per-frame input handling. RIGHT and LEFT move the quad through a clamped
    offset and then send its direction, space negates the static `flip`
    once per press (the `was_released` latch) and sends it, and DOWN then UP
    change the clamped texture mix. The statics of the program are fields. */
module CTexture {
  import opened Wrappers
  import opened Uniforms
  import Keyboard
  import CUtils

  // ---------------------------------------------------------------------
  // loadImage

  /** The `Image` record: size, channel count and the pixel data, None for NULL. */
  datatype Image = Image(width: int, height: int, channels: int, data: Option<seq<bv8>>)

  /** What `loadImage` does outside its result: a line on stderr, the
      vertical-flip switch of the decoder, a call of the decoder on a path. */
  datatype Effect = Stderr(line: string) | FlipOnLoad | Decode(path: string)

  datatype Loaded = Loaded(image: Image, effects: seq<Effect>)

  /** The all-zero image with NULL data that `loadImage` starts from. */
  const Empty := Image(0, 0, 0, None)

  /** `loadImage(path)`, with `path` None for NULL and `decode` standing for
      the image decoder (`stbi_load`), which is not part of this model. A NULL
      path is reported on stderr and gives the empty image without calling
      the decoder; any other path switches on vertical flipping and returns
      whatever the decoder produces. */
  function LoadImage(path: Option<string>, decode: string -> Image): (r: Loaded)
    ensures path.None? ==> r.image == Empty && r.effects == [Stderr("loadImage: Path is NULL\n")]
    ensures path.Some? ==> r.image == decode(path.value)
    ensures path.Some? ==> r.effects == [FlipOnLoad, Decode(path.value)]
    ensures (exists e :: e in r.effects && e.Decode?) <==> path.Some?
    ensures forall p :: Decode(p) in r.effects ==> path == Some(p)
  {
    if path.None? then
      Loaded(Empty, [Stderr("loadImage: Path is NULL\n")])
    else
      var effects := [FlipOnLoad, Decode(path.value)];
      assert effects[1].Decode?;
      Loaded(decode(path.value), effects)
  }

  /** With a NULL path the decoder is irrelevant: any two decoders give the
      same result. */
  lemma NullPathIgnoresDecoder(decode1: string -> Image, decode2: string -> Image)
    ensures LoadImage(None, decode1) == LoadImage(None, decode2)
    ensures LoadImage(None, decode1).image.data == None
  {
  }

  // ---------------------------------------------------------------------
  // processInputs

  /** The keys `processInputs` polls, each down (`true`) or up this frame. */
  datatype Keys = Keys(escape: bool, right: bool, left: bool, space: bool, down: bool, up: bool)

  /** The close flag, the statics `was_released`, `flip`, `current_offset`
      and `mixer`, and the uniform writes sent. */
  datatype Scene = Scene(
    shouldClose: bool,
    wasReleased: bool,
    flip: int,
    offset: real,
    mixer: real,
    log: seq<Uniform>)

  const Initial := Scene(false, true, 1, 0.0, 0.5, [])

  /** The increment of one arrow key (0.02f). */
  const MOVE: real := 0.02

  /** `updateOffset(increment)`. */
  function Offset(s: Scene, increment: real): Scene
  {
    var offset := CUtils.ClampMacro(s.offset + increment, -1.0, 1.0);
    s.(offset := offset, log := s.log + [Uniform("offset", FloatValue(offset))])
  }

  /** `updateMix(increment)`. */
  function Mix(s: Scene, increment: real): Scene
  {
    var mixer := CUtils.ClampMacro(s.mixer + increment, 0.0, 1.0);
    s.(mixer := mixer, log := s.log + [Uniform("mixer", FloatValue(mixer))])
  }

  /** `shader_setInt(shader, "direction", value)`. */
  function Direction(s: Scene, value: int): Scene
  {
    s.(log := s.log + [Uniform("direction", IntValue(value))])
  }

  /** The arrow part of `processInputs`: RIGHT then LEFT, each moving the
      offset and then sending its direction. */
  function ArrowKeys(s: Scene, keys: Keys): Scene
  {
    var s1 := if keys.right then Direction(Offset(s, MOVE), 1) else s;
    if keys.left then Direction(Offset(s1, -MOVE), -1) else s1
  }

  /** The space part: negate and send `flip` on a fresh press, then re-arm
      the latch on a frame where space is up. */
  function SpaceKey(s: Scene, pressed: bool): Scene
  {
    var s1 := if Keyboard.Fires(s.wasReleased, pressed)
              then s.(flip := -s.flip, log := s.log + [Uniform("flip", IntValue(-s.flip))], wasReleased := false)
              else s;
    if !pressed then s1.(wasReleased := true) else s1
  }

  /** The mixing part: DOWN before UP. */
  function MixKeys(s: Scene, keys: Keys): Scene
  {
    var s1 := if keys.down then Mix(s, -MOVE) else s;
    if keys.up then Mix(s1, MOVE) else s1
  }

  /** `processInputs(window)`: escape, arrows, space, then mixing. */
  function Frame(s: Scene, keys: Keys): Scene
  {
    var s1 := if keys.escape then s.(shouldClose := true) else s;
    MixKeys(SpaceKey(ArrowKeys(s1, keys), keys.space), keys)
  }

  function Run(s: Scene, frames: seq<Keys>): Scene
    decreases |frames|
  {
    if |frames| == 0 then s else Run(Frame(s, frames[0]), frames[1..])
  }

  function Spaces(frames: seq<Keys>): (spaces: seq<bool>)
    ensures |spaces| == |frames| && forall i :: 0 <= i < |frames| ==> spaces[i] == frames[i].space
  {
    seq(|frames|, i requires 0 <= i < |frames| => frames[i].space)
  }

  /** The offset in [-1, 1], `mixer` in [0, 1], `flip` +1 or -1, the last
      values sent being the scene's own offset, mix and flip, and a `direction` that,
      once sent, is +1 or -1. */
  predicate Inv(s: Scene)
  {
    && -1.0 <= s.offset <= 1.0
    && 0.0 <= s.mixer <= 1.0
    && (s.flip == 1 || s.flip == -1)
    && Synced(s.log, "offset", FloatValue(s.offset))
    && Synced(s.log, "mixer", FloatValue(s.mixer))
    && Synced(s.log, "flip", IntValue(s.flip))
    && (Current(s.log, "direction") == None || Current(s.log, "direction") == Some(IntValue(1))
        || Current(s.log, "direction") == Some(IntValue(-1)))
  }

  lemma InitialInv()
    ensures Inv(Initial)
  {
  }

  /** A write of `u` keeps every uniform other than `u.name` where it was. */
  lemma WriteKeepsOthers(s: Scene, t: Scene, u: Uniform)
    requires t.log == s.log + [u]
    ensures u.name != "offset" ==> Current(t.log, "offset") == Current(s.log, "offset")
    ensures u.name != "mixer" ==> Current(t.log, "mixer") == Current(s.log, "mixer")
    ensures u.name != "flip" ==> Current(t.log, "flip") == Current(s.log, "flip")
    ensures u.name != "direction" ==> Current(t.log, "direction") == Current(s.log, "direction")
    ensures Current(t.log, u.name) == Some(u.value)
  {
    CurrentAfterWrite(s.log, u, "offset");
    CurrentAfterWrite(s.log, u, "mixer");
    CurrentAfterWrite(s.log, u, "flip");
    CurrentAfterWrite(s.log, u, "direction");
    CurrentAfterWrite(s.log, u, u.name);
  }

  lemma OffsetKeepsInv(s: Scene, increment: real)
    requires Inv(s)
    ensures Inv(Offset(s, increment))
    ensures Current(Offset(s, increment).log, "offset") == Some(FloatValue(Offset(s, increment).offset))
  {
    var t := Offset(s, increment);
    CUtils.ClampMacroInRange(s.offset + increment, -1.0, 1.0);
    WriteKeepsOthers(s, t, Uniform("offset", FloatValue(t.offset)));
  }

  lemma MixKeepsInv(s: Scene, increment: real)
    requires Inv(s)
    ensures Inv(Mix(s, increment))
    ensures Current(Mix(s, increment).log, "mixer") == Some(FloatValue(Mix(s, increment).mixer))
  {
    var t := Mix(s, increment);
    CUtils.ClampMacroInRange(s.mixer + increment, 0.0, 1.0);
    WriteKeepsOthers(s, t, Uniform("mixer", FloatValue(t.mixer)));
  }

  lemma DirectionKeepsInv(s: Scene, value: int)
    requires Inv(s) && (value == 1 || value == -1)
    ensures Inv(Direction(s, value))
  {
    WriteKeepsOthers(s, Direction(s, value), Uniform("direction", IntValue(value)));
  }

  lemma ArrowKeysKeepInv(s: Scene, keys: Keys)
    requires Inv(s)
    ensures Inv(ArrowKeys(s, keys))
  {
    var s1 := if keys.right then Direction(Offset(s, MOVE), 1) else s;
    assert Inv(s1) by {
      if keys.right {
        OffsetKeepsInv(s, MOVE);
        DirectionKeepsInv(Offset(s, MOVE), 1);
      }
    }
    if keys.left {
      OffsetKeepsInv(s1, -MOVE);
      DirectionKeepsInv(Offset(s1, -MOVE), -1);
    }
  }

  lemma SpaceKeyKeepsInv(s: Scene, pressed: bool)
    requires Inv(s)
    ensures Inv(SpaceKey(s, pressed))
  {
    if Keyboard.Fires(s.wasReleased, pressed) {
      var t := s.(flip := -s.flip, log := s.log + [Uniform("flip", IntValue(-s.flip))], wasReleased := false);
      WriteKeepsOthers(s, t, Uniform("flip", IntValue(-s.flip)));
    }
  }

  lemma MixKeysKeepInv(s: Scene, keys: Keys)
    requires Inv(s)
    ensures Inv(MixKeys(s, keys))
  {
    var s1 := if keys.down then Mix(s, -MOVE) else s;
    assert Inv(s1) by { if keys.down { MixKeepsInv(s, -MOVE); } }
    if keys.up { MixKeepsInv(s1, MOVE); }
  }

  /** One frame keeps the invariant. */
  lemma FrameKeepsInv(s: Scene, keys: Keys)
    requires Inv(s)
    ensures Inv(Frame(s, keys))
  {
    var s1 := if keys.escape then s.(shouldClose := true) else s;
    var s2 := ArrowKeys(s1, keys);
    ArrowKeysKeepInv(s1, keys);
    var s3 := SpaceKey(s2, keys.space);
    SpaceKeyKeepsInv(s2, keys.space);
    MixKeysKeepInv(s3, keys);
    assert Frame(s, keys) == MixKeys(s3, keys);
  }

  /** Any run of frames from a reachable scene keeps the invariant. */
  lemma {:induction false} RunKeepsInv(s: Scene, frames: seq<Keys>)
    requires Inv(s)
    ensures Inv(Run(s, frames))
    decreases |frames|
  {
    if |frames| > 0 {
      FrameKeepsInv(s, frames[0]);
      RunKeepsInv(Frame(s, frames[0]), frames[1..]);
    }
  }

  /** Only the space bar touches `flip` and the latch; escape sets the close flag. */
  lemma FrameFlip(s: Scene, keys: Keys)
    ensures Frame(s, keys).flip == if Keyboard.Fires(s.wasReleased, keys.space) then -s.flip else s.flip
    ensures Frame(s, keys).wasReleased == !keys.space
    ensures Frame(s, keys).shouldClose == (s.shouldClose || keys.escape)
  {
  }

  /** `flip` changes sign once per press of the space bar. */
  lemma {:induction false} RunFlip(s: Scene, frames: seq<Keys>)
    ensures Run(s, frames).flip == Keyboard.SignAfter(s.flip, s.wasReleased, Spaces(frames))
    decreases |frames|
  {
    if |frames| > 0 {
      var t := Frame(s, frames[0]);
      FrameFlip(s, frames[0]);
      assert Spaces(frames)[1..] == Spaces(frames[1..]);
      RunFlip(t, frames[1..]);
      Keyboard.SignAfterStep(s.flip, s.wasReleased, Spaces(frames));
    }
  }

  /** The first press of space sends -1 as `flip`. */
  lemma FirstPressSendsMinusOne()
    ensures Frame(Initial, Keys(false, false, false, true, false, false)).log == [Uniform("flip", IntValue(-1))]
  {
  }

  /** The direction sent last in a frame is LEFT's when LEFT is held, else
      RIGHT's when RIGHT is held, else unchanged. */
  lemma FrameDirection(s: Scene, keys: Keys)
    ensures Current(Frame(s, keys).log, "direction")
         == if keys.left then Some(IntValue(-1)) else if keys.right then Some(IntValue(1))
            else Current(s.log, "direction")
  {
    var s1 := if keys.escape then s.(shouldClose := true) else s;
    var s2 := ArrowKeys(s1, keys);
    ArrowKeysDirection(s1, keys);
    var s3 := SpaceKey(s2, keys.space);
    if Keyboard.Fires(s2.wasReleased, keys.space) {
      WriteKeepsOthers(s2, s3, Uniform("flip", IntValue(-s2.flip)));
    }
    MixKeysKeepDirection(s3, keys);
    assert Frame(s, keys) == MixKeys(s3, keys);
  }

  lemma ArrowKeysDirection(s: Scene, keys: Keys)
    ensures Current(ArrowKeys(s, keys).log, "direction")
         == if keys.left then Some(IntValue(-1)) else if keys.right then Some(IntValue(1))
            else Current(s.log, "direction")
  {
    var s1 := if keys.right then Direction(Offset(s, MOVE), 1) else s;
    if keys.right {
      WriteKeepsOthers(Offset(s, MOVE), s1, Uniform("direction", IntValue(1)));
    }
    if keys.left {
      WriteKeepsOthers(Offset(s1, -MOVE), ArrowKeys(s, keys), Uniform("direction", IntValue(-1)));
    }
  }

  lemma MixKeysKeepDirection(s: Scene, keys: Keys)
    ensures Current(MixKeys(s, keys).log, "direction") == Current(s.log, "direction")
  {
    var s1 := if keys.down then Mix(s, -MOVE) else s;
    if keys.down {
      WriteKeepsOthers(s, s1, Uniform("mixer", FloatValue(s1.mixer)));
    }
    if keys.up {
      WriteKeepsOthers(s1, Mix(s1, MOVE), Uniform("mixer", FloatValue(Mix(s1, MOVE).mixer)));
    }
  }

  /** DOWN is handled before UP: with no mix and both held, DOWN is clamped
      away and UP then raises the mix, so the frame ends at 0.02. */
  lemma DownBeforeUp(s: Scene)
    requires s.mixer == 0.0
    ensures var t := Frame(s, Keys(false, false, false, false, true, true));
            t.mixer == 0.02
            && t.log == s.log + [Uniform("mixer", FloatValue(0.0)), Uniform("mixer", FloatValue(0.02))]
  {
  }

  /** The program's input state: the close flag, the statics and the uniform writes. */
  class TextureProgram {
    var shouldClose: bool
    var wasReleased: bool
    var flip: int
    var offset: real
    var mixer: real
    var log: seq<Uniform>

    function State(): Scene
      reads this
    {
      Scene(shouldClose, wasReleased, flip, offset, mixer, log)
    }

    constructor ()
      ensures State() == Initial
    {
      shouldClose, wasReleased, flip, offset, mixer, log := false, true, 1, 0.0, 0.5, [];
    }

    method UpdateOffset(increment: real)
      modifies this
      ensures State() == Offset(old(State()), increment)
    {
      offset := offset + increment;
      offset := CUtils.ClampMacro(offset, -1.0, 1.0);
      log := log + [Uniform("offset", FloatValue(offset))];
    }

    method UpdateMix(increment: real)
      modifies this
      ensures State() == Mix(old(State()), increment)
    {
      mixer := mixer + increment;
      mixer := CUtils.ClampMacro(mixer, 0.0, 1.0);
      log := log + [Uniform("mixer", FloatValue(mixer))];
    }

    /** The RIGHT and LEFT tests of `processInputs`. */
    method ArrowBlock(keys: Keys)
      modifies this
      ensures State() == ArrowKeys(old(State()), keys)
    {
      if keys.right {
        UpdateOffset(MOVE);
        log := log + [Uniform("direction", IntValue(1))];
      }
      if keys.left {
        UpdateOffset(-MOVE);
        log := log + [Uniform("direction", IntValue(-1))];
      }
    }

    /** The two space tests of `processInputs`, with the latch. */
    method SpaceBlock(pressed: bool)
      modifies this
      ensures State() == SpaceKey(old(State()), pressed)
    {
      if pressed && wasReleased {
        flip := flip * -1;
        log := log + [Uniform("flip", IntValue(flip))];
        wasReleased := false;
      }
      if !pressed {
        wasReleased := true;
      }
    }

    /** The DOWN and UP tests of `processInputs`. */
    method MixBlock(keys: Keys)
      modifies this
      ensures State() == MixKeys(old(State()), keys)
    {
      if keys.down {
        UpdateMix(-MOVE);
      }
      if keys.up {
        UpdateMix(MOVE);
      }
    }

    /** `processInputs(window)`: escape, then the key groups in order. */
    method ProcessInputs(keys: Keys)
      modifies this
      ensures State() == Frame(old(State()), keys)
    {
      if keys.escape {
        shouldClose := true;
      }
      ArrowBlock(keys);
      SpaceBlock(keys.space);
      MixBlock(keys);
    }
  }
}
