/** Small helpers shared by every scene: an optional value, the log of
    uniform writes a scene sends to its shader, and the edge-triggered
    space-bar latch that several scenes use for their flip toggle. */
module Wrappers {

  datatype Option<+T> = None | Some(value: T)
}

/** The shader's uniforms as seen from the scene: each `setUniform` /
    `shader_setFloat` / `shader_setInt` call appends one write to a log, and
    the value `Current` gives for a uniform is the last one sent. */
module Uniforms {
  import opened Wrappers

  datatype Value = FloatValue(f: real) | IntValue(i: int)

  datatype Uniform = Uniform(name: string, value: Value)

  /** The value the uniform `name` holds after the writes in `log`, or None
      when it was never written. */
  function Current(log: seq<Uniform>, name: string): Option<Value>
  {
    if |log| == 0 then None
    else if log[|log| - 1].name == name then Some(log[|log| - 1].value)
    else Current(log[..|log| - 1], name)
  }

  /** `Current` is the last write: None exactly when `name` was never
      written, otherwise the value of a write to `name` after which no other
      write to `name` follows. */
  lemma {:induction false} CurrentIsLastWrite(log: seq<Uniform>, name: string)
    ensures Current(log, name).None? <==> forall i :: 0 <= i < |log| ==> log[i].name != name
    ensures Current(log, name).Some? ==>
              exists i :: 0 <= i < |log| && log[i] == Uniform(name, Current(log, name).value)
                          && forall j :: i < j < |log| ==> log[j].name != name
  {
    if |log| == 0 {
    } else if log[|log| - 1].name == name {
      var last := |log| - 1;
      assert log[last] == Uniform(name, Current(log, name).value);
    } else {
      var prefix := log[..|log| - 1];
      CurrentIsLastWrite(prefix, name);
      assert Current(log, name) == Current(prefix, name);
      assert forall i :: 0 <= i < |prefix| ==> prefix[i] == log[i];
      if Current(prefix, name).Some? {
        var i :| 0 <= i < |prefix| && prefix[i] == Uniform(name, Current(prefix, name).value)
                 && forall j :: i < j < |prefix| ==> prefix[j].name != name;
        assert log[i] == Uniform(name, Current(log, name).value);
      }
    }
  }

  /** A write to a uniform is what that uniform then holds; other uniforms are untouched. */
  lemma CurrentAfterWrite(log: seq<Uniform>, u: Uniform, name: string)
    ensures Current(log + [u], name) == if u.name == name then Some(u.value) else Current(log, name)
  {
    assert (log + [u])[..|log|] == log;
  }

  lemma PrefixTransitive(a: seq<Uniform>, b: seq<Uniform>, c: seq<Uniform>)
    requires a <= b && b <= c
    ensures a <= c
  {
    assert forall i :: 0 <= i < |a| ==> a[i] == b[i] == c[i];
  }

  /** The last value sent to uniform `name` is the scene's own value `v`
      (or the scene never sent it). */
  predicate Synced(log: seq<Uniform>, name: string, v: Value)
  {
    Current(log, name) == None || Current(log, name) == Some(v)
  }
}

/** The space-bar latch of the scenes: a toggle fires when space is down and
    the latch says it was released; firing clears the latch, and only a frame
    in which space is up sets it again. */
module Keyboard {

  /** Whether the toggle fires this frame. */
  function Fires(released: bool, pressed: bool): bool
  {
    pressed && released
  }

  /** The latch after one frame: the two `if`s of the scenes in order. */
  function NextReleased(released: bool, pressed: bool): (r: bool)
    ensures r == !pressed
  {
    var afterPress := if pressed && released then false else released;
    if !pressed then true else afterPress
  }

  /** How many frames of `spaces` fire the toggle, starting from latch `released`. */
  function Toggles(released: bool, spaces: seq<bool>): nat
    decreases |spaces|
  {
    if |spaces| == 0 then 0
    else (if Fires(released, spaces[0]) then 1 else 0) + Toggles(NextReleased(released, spaces[0]), spaces[1..])
  }

  /** How many frames of `spaces` are presses: space down after a frame with
      space up (`wasDown` is the state of the frame before the first). */
  function Presses(wasDown: bool, spaces: seq<bool>): nat
    decreases |spaces|
  {
    if |spaces| == 0 then 0
    else (if spaces[0] && !wasDown then 1 else 0) + Presses(spaces[0], spaces[1..])
  }

  /** The toggle fires exactly once per press of the space bar. */
  lemma {:induction false} TogglesArePresses(released: bool, spaces: seq<bool>)
    ensures Toggles(released, spaces) == Presses(!released, spaces)
    decreases |spaces|
  {
    if |spaces| > 0 {
      TogglesArePresses(NextReleased(released, spaces[0]), spaces[1..]);
    }
  }

  /** Space held for `n` frames.  */
  function Held(n: nat): (s: seq<bool>)
    ensures |s| == n && forall i :: 0 <= i < n ==> s[i]
  {
    seq(n, i => true)
  }

  /** Holding space over any number of frames toggles once if the latch was
      released, and not at all if it was not. */
  lemma {:induction false} HoldingTogglesOnce(released: bool, n: nat)
    requires n > 0
    ensures Toggles(released, Held(n)) == if released then 1 else 0
  {
    if n > 1 {
      assert Held(n)[1..] == Held(n - 1);
      HoldingTogglesOnce(false, n - 1);
    } else {
      assert Held(n)[1..] == [];
    }
  }

  /** The sign of a +-1 toggle after the frames `spaces`. */
  function SignAfter(sign: int, released: bool, spaces: seq<bool>): int
  {
    if Toggles(released, spaces) % 2 == 0 then sign else -sign
  }

  /** Each firing frame negates the sign once, so SignAfter is the frame-by-frame fold. */
  lemma SignAfterStep(sign: int, released: bool, spaces: seq<bool>)
    requires |spaces| > 0
    ensures SignAfter(sign, released, spaces)
         == SignAfter(if Fires(released, spaces[0]) then -sign else sign,
                      NextReleased(released, spaces[0]), spaces[1..])
  {
  }
}
