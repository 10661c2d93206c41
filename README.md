# LearnGL-Playground: the logic behind the OpenGL scenes, in Dafny

LearnGL-Playground is a set of small OpenGL/GLFW programs, in C and in C++.
Around the graphics calls, four small pieces of deterministic logic decide what
the programs do. This project models those pieces and proves properties about
them:

- **The colour cycler** (`common.dfy` is shared; `utils.dfy`, `c_utils.dfy`).
  - The C++ `Utils::ScrollingColour` and the C `updateColours` step an RGB colour through the phases RED → GREEN → BLUE → RED.
  - Both are proved against one specification, `Utils.Update`.
  - In C the phase is a function-static variable, shared by every caller.
- **The clamp and size helpers.**
  - `Utils::clamp`, the C `clamp` macro and `arrayDataSize`.
- **The per-frame input state machines** of five scenes:
  - `Shading.cpp` (`shading.dfy`), `Texture.cpp` (`texture.dfy`) and `Matrix.cpp` (`matrix.dfy`);
  - `shading.c` (`c_shading.dfy`) and `texture.c` (`c_texture.dfy`, which also has the NULL guard of `loadImage`).

  Each scene is a class whose fields are the program's statics and members. `ProcessInputs` and the `update*` helpers are its methods. Each method is proved equal to a pure transition function `Frame(state, keys)`. Invariants and key-order properties are proved about `Frame` and about runs of frames:
  - clamped offsets and mixes stay in range;
  - the last value sent to each uniform is the scene's own value;
  - `flip` is ±1 and changes once per press of the space bar;
  - UP wins over DOWN, and similar key-order rules.
- **The application lifecycle.**
  - `BaseApplication::run`/`init`/`cleanup` (`base_application.dfy`) and the C `main`/`init`/`logAndExit` (`c_main.dfy`).
  - Both are modelled as traces of events over an abstract platform (`lifecycle.dfy`).
  - The platform answers each initialisation step with success or failure, and each close check with a boolean.
  - The proofs cover:
    - init stops at the first failure;
    - on failure no hook runs and GLFW is terminated last;
    - on success `setup` and `teardown` run once, and each loop turn runs processInputs → render → poll after a close check;
    - the C and C++ drivers produce the same trace of modelled events.

Conventions of the model:

- Key states are one boolean per key per frame. GLFW only refreshes them in `glfwPollEvents`, so two `glfwGetKey` calls in one frame agree.
- `glfwSetWindowShouldClose` sets a `shouldClose` flag.
- Every `setUniform` / `shader_set*` call appends a `Uniform(name, value)` to an append-only `log`. `Uniforms.Current` is the last value sent to a uniform. The model takes every write to reach the shader program; see "## Left out" for the writes that do not.
- `float` values are `real`, so every sum is exact. Ranges, flip signs, key order, toggle counts and the lifecycle do not depend on this. Every concrete number and every step count the model states holds in exact arithmetic only (see "## Left out").

Notes on the code:

- In `Matrix.cpp` the scale and the rotation angle are member fields (`src/ch4-matrix/Matrix.cpp:242-243`). The two offset accumulators and the mixer are function-local statics.
- `loadImage` in `texture.c` only guards against a NULL path. Any other path goes straight to the decoder (`src/ch3-texture/texture.c:126-132`).
- `main.c` requests a forward-compatible context on every platform (`src/main.c:34`); `BaseApplication` does so only on Apple systems (`src/BaseApplication.hpp:45-47`). The two drivers therefore ask GLFW for different contexts elsewhere. Window hints are not modelled, so the drivers' modelled traces can still be equal.
- `Shading.cpp` and `shading.c` first make their shader program current in `render` (`src/ch2-shading/Shading.cpp:116`, `src/ch2-shaders/shading.c:106`), and each loop turn calls `processInputs` before `render`. The uniform writes of the very first frame therefore go to no program, and OpenGL drops them. `Texture.cpp`, `Matrix.cpp` and `texture.c` make their program current in `setup` (`src/ch3-texture/Texture.cpp:71`, `src/ch4-matrix/Matrix.cpp:74`, `src/ch3-texture/texture.c:117`) and are unaffected.
- On a POSIX system, `exit(-1)` in `main.c` reaches the parent process as wait status 255. `CMain.ExitStatus` models the POSIX exit status as the low eight bits of the code.

## Model

| member | source | states |
|---|---|---|
| Utils.Clamp | src/Utils/Utils.hpp:44-54 | below the lower bound the result is the lower bound (tested first); above the upper bound it is the upper bound; inside the bounds it is the value; with ordered bounds the result lies in them |
| Utils.ClampIsMaxMin | src/Utils/Utils.hpp:44-54 | with ordered bounds, clamp equals max(lower, min(value, higher)) |
| Utils.ClampIdempotent | src/Utils/Utils.hpp:44-54 | with ordered bounds, clamping twice equals clamping once |
| Utils.ClampInvertedBounds | src/Utils/Utils.hpp:47-52 | with inverted bounds the lower test wins below the lower bound and the result is the upper bound everywhere else |
| Utils.ArrayDataSize | src/Utils/Utils.hpp:32-40 | the byte size is the element count times the element size (0 for an empty array) |
| Utils.ArrayDataSizeGrows | src/Utils/Utils.hpp:36-39 | one more element adds exactly one element's size |
| Utils.Next | src/Utils/Utils.cpp:51-71 | the phase that follows each phase: RED → GREEN → BLUE → RED |
| Utils.Update | src/Utils/Utils.cpp:46-73 | one step lowers the phase's falling channel by STEP, raises its rising channel by STEP and leaves the third alone; the phase moves to its cyclic successor exactly when the falling channel is then ≤ 0 |
| Utils.Iterate | src/Utils/Utils.cpp:9-14 | `n` successive updates of the cycler, as `n` calls of `getNext` perform them |
| Utils.DefaultBounded | src/Utils/Utils.hpp:28-29 | the initial state (RED, (1, 0, 0)) has the shape every reachable state has |
| Utils.UpdateKeepsBounded | src/Utils/Utils.cpp:50-72 | a step keeps that shape: falling channel > 0, rising > -STEP, idle in (-STEP, 0] |
| Utils.IterateKeepsBounded | src/Utils/Utils.cpp:50-72 | any number of steps keeps the shape, so no channel ever reaches -STEP |
| Utils.AdvancesWhenDrained | src/Utils/Utils.cpp:54-70 | if the falling channel needs n steps to drain, the first n-1 steps keep the phase and lower that channel by STEP each, and the n-th advances the phase |
| Utils.NoClampingExample | src/Utils/Utils.cpp:52-56 | nothing is clamped: from r = 0.005 in RED a step leaves r = -0.005 and moves to GREEN |
| Utils.ScrollingColour.constructor | src/Utils/Utils.hpp:28-29 | a fresh cycler is in RED with colour (1, 0, 0) |
| Utils.ScrollingColour.UpdateColours | src/Utils/Utils.cpp:46-73 | the in-place switch performs exactly `Update` on the fields |
| Utils.ScrollingColour.GetNext | src/Utils/Utils.cpp:9-14 | performs exactly one update and returns the colour after it |
| Utils.ScrollingColour.GetCurrent | src/Utils/Utils.cpp:16-20 | returns the colour and changes nothing |
| Utils.ScrollingColourClient | src/Utils/Utils.cpp:9-20 | a fresh cycler reads (1, 0, 0) twice in a row, and `getNext` then gives (0.99, 0.01, 0) |
| CUtils.ClampMacro | src/utils.h:11 | the macro's nested conditional: a when x < a, else b when x > b, else x (its properties are stated by the two lemmas below) |
| CUtils.ClampMacroIsClamp | src/utils.h:11 | the C macro and the C++ template agree on every input |
| CUtils.ClampMacroInRange | src/utils.h:11 | with a ≤ b the macro lands in [a, b] and applying it twice equals applying it once |
| CUtils.Colour.constructor | src/utils.h:4-7 | the record holds the four channels it is given |
| CUtils.ColourUpdater.constructor | src/utils.c:13 | the function-static phase starts at RED |
| CUtils.ColourUpdater.UpdateColours | src/utils.c:3-37 | the phase taken from the static and the caller's colour step exactly as `Update`; alpha is never written |
| CUtils.TwoCallersSharePhase | src/utils.c:13-28 | the phase is shared: after one caller drains its red, a second caller's fresh red colour is stepped as GREEN to (1, -0.01, 0.01) and the phase moves on to BLUE |
| Uniforms.CurrentIsLastWrite | src/ch2-shading/Shading.cpp:88 | the last value sent to a uniform is None exactly when it was never written, and otherwise the value of its last write |
| Uniforms.CurrentAfterWrite | src/ch2-shading/Shading.cpp:88 | after a `setUniform` the written value is the last one sent to that uniform, and every other uniform's last value is as it was |
| Keyboard.Fires | src/ch2-shading/Shading.cpp:73-76 | the toggle fires when space is down and the latch is armed |
| Keyboard.Toggles | src/ch2-shading/Shading.cpp:71-79 | how many frames of a run fire the toggle, following the latch from frame to frame |
| Keyboard.SignAfter | src/ch2-shading/Shading.cpp:71-79 | a ±1 value negated once per firing over a run |
| Keyboard.NextReleased | src/ch2-shading/Shading.cpp:72-79 | after a frame, the release latch is armed exactly when space is up |
| Keyboard.TogglesArePresses | src/ch2-shading/Shading.cpp:72-79 | over any frames, the latch fires once per press (space down after a frame with it up) |
| Keyboard.HoldingTogglesOnce | src/ch2-shading/Shading.cpp:72-79 | holding space over any number of frames toggles once from an armed latch and never from an unarmed one |
| Keyboard.SignAfterStep | src/ch2-shading/Shading.cpp:72-79 | the sign after a run of frames is the frame-by-frame fold of the toggles |
| Shading.HorizontalOffset | src/ch2-shading/Shading.cpp:82-89 | `updateHorizontalOffset`: the static offset plus the increment, clamped to [-1, 1], stored and sent as `hOffset` |
| Shading.VerticalOffset | src/ch2-shading/Shading.cpp:91-98 | `updateVerticalOffset`: the same for `vOffset` |
| Shading.Flipped | src/ch2-shading/Shading.cpp:100-106 | `updateFlip`: the static `flip` negated, stored and sent |
| Shading.EscapeKey | src/ch2-shading/Shading.cpp:53-55 | escape raises the window's close flag |
| Shading.MovementKeys | src/ch2-shading/Shading.cpp:57-69 | H, L, J, K in that order, each calling its update helper with ∓0.02 |
| Shading.SpaceKey | src/ch2-shading/Shading.cpp:71-79 | flip on a fresh press and disarm the latch, then re-arm it when space is up |
| Shading.Frame | src/ch2-shading/Shading.cpp:51-80 | `processInputs`: escape, movement, then the space latch |
| Shading.Run | src/ch2-shading/Shading.cpp:51-80 | successive frames |
| Shading.InitialInv | src/ch2-shading/Shading.cpp:72-105 | the statics' initial values satisfy the invariant (offsets in [-1, 1], flip ±1, the last values sent are the scene's) |
| Shading.HorizontalOffsetKeepsInv | src/ch2-shading/Shading.cpp:82-89 | an update keeps `hOffset` in [-1, 1] and the uniform equals the stored value |
| Shading.VerticalOffsetKeepsInv | src/ch2-shading/Shading.cpp:91-98 | the same for `vOffset` |
| Shading.FlippedKeepsInv | src/ch2-shading/Shading.cpp:100-106 | negating `flip` keeps it ±1 and sends the new value |
| Shading.SpaceKeyKeepsInv | src/ch2-shading/Shading.cpp:71-79 | the space block keeps the invariant, leaves the latch as `NextReleased`, and negates `flip` exactly when the latch fires |
| Shading.MovementKeysKeepInv | src/ch2-shading/Shading.cpp:57-69 | the H/L/J/K block keeps the invariant |
| Shading.MovementKeysShape | src/ch2-shading/Shading.cpp:57-69 | the movement block changes only the offsets and the log, and only appends to the log |
| Shading.FrameKeepsInv | src/ch2-shading/Shading.cpp:51-80 | a whole frame keeps the invariant |
| Shading.RunKeepsInv | src/ch2-shading/Shading.cpp:51-106 | any run of frames keeps the invariant |
| Shading.FrameEffects | src/ch2-shading/Shading.cpp:51-80 | escape sets the close flag, the latch ends equal to "space up", and the log is only appended to |
| Shading.FrameFlip | src/ch2-shading/Shading.cpp:71-79 | only the space latch touches `flip`: it is negated exactly when the latch fires |
| Shading.RunFlip | src/ch2-shading/Shading.cpp:71-79 | after any run, `flip` is its start value negated once per firing of the latch |
| Shading.HBeforeL | src/ch2-shading/Shading.cpp:57-63 | H is applied before L: at the left edge with both held, -1.0 and then -0.98 are sent |
| Shading.ShadingScene.constructor | src/ch2-shading/Shading.cpp:72-105 | the statics start at their initialisers |
| Shading.ShadingScene.UpdateHorizontalOffset | src/ch2-shading/Shading.cpp:82-89 | the in-place update is `HorizontalOffset` |
| Shading.ShadingScene.UpdateVerticalOffset | src/ch2-shading/Shading.cpp:91-98 | the in-place update is `VerticalOffset` |
| Shading.ShadingScene.UpdateFlip | src/ch2-shading/Shading.cpp:100-106 | the in-place update is `Flipped` |
| Shading.ShadingScene.MovementBlock | src/ch2-shading/Shading.cpp:57-69 | the movement block is `MovementKeys` |
| Shading.ShadingScene.SpaceBlock | src/ch2-shading/Shading.cpp:71-79 | the flip block is `SpaceKey` |
| Shading.ShadingScene.ProcessInputs | src/ch2-shading/Shading.cpp:51-80 | one call is exactly one `Frame` |
| Texture.HorizontalOffset | src/ch3-texture/Texture.cpp:116-123 | `updateHorizontalOffset`: clamped to [-1, 1], stored and sent as `hOffset` |
| Texture.VerticalOffset | src/ch3-texture/Texture.cpp:125-132 | `updateVerticalOffset`: clamped to [-1, 1], stored and sent as `vOffset` |
| Texture.Flipped | src/ch3-texture/Texture.cpp:134-140 | `updateHorizontalFlip`: the static `flip` negated, stored and sent |
| Texture.TextureMix | src/ch3-texture/Texture.cpp:142-149 | `updateTextureMix`: the static mixer plus the increment, clamped to [0, 1], stored and sent as `mixer` |
| Texture.EscapeKey | src/ch3-texture/Texture.cpp:79-81 | escape raises the window's close flag |
| Texture.MovementKeys | src/ch3-texture/Texture.cpp:83-95 | H, L, J, K in that order |
| Texture.SpaceKey | src/ch3-texture/Texture.cpp:97-105 | flip on a fresh press and disarm the latch, then re-arm it when space is up |
| Texture.MixKeys | src/ch3-texture/Texture.cpp:107-113 | UP (+0.02) then DOWN (-0.02) |
| Texture.Frame | src/ch3-texture/Texture.cpp:76-114 | `processInputs`: escape, movement, space, then mixing |
| Texture.Run | src/ch3-texture/Texture.cpp:76-114 | successive frames |
| Texture.InitialInv | src/ch3-texture/Texture.cpp:98-145 | initial statics: offsets in [-1, 1], mixer 0.5 in [0, 1], flip ±1, uniforms synchronised |
| Texture.HorizontalOffsetKeepsInv | src/ch3-texture/Texture.cpp:116-123 | `hOffset` stays in [-1, 1] and is the value sent |
| Texture.VerticalOffsetKeepsInv | src/ch3-texture/Texture.cpp:125-132 | `vOffset` stays in [-1, 1] and is the value sent |
| Texture.TextureMixKeepsInv | src/ch3-texture/Texture.cpp:142-149 | `mixer` stays in [0, 1] and is the value sent |
| Texture.SpaceKeyKeepsInv | src/ch3-texture/Texture.cpp:97-105 | the flip block keeps `flip` ±1 and synchronised |
| Texture.MovementKeysKeepInv | src/ch3-texture/Texture.cpp:83-95 | the H/L/J/K block keeps the invariant |
| Texture.MixKeysKeepInv | src/ch3-texture/Texture.cpp:107-113 | the UP/DOWN block keeps the invariant |
| Texture.FrameKeepsInv | src/ch3-texture/Texture.cpp:76-114 | a whole frame keeps the invariant |
| Texture.RunKeepsInv | src/ch3-texture/Texture.cpp:76-149 | any run of frames keeps the invariant |
| Texture.WriteKeepsOthers | src/ch3-texture/Texture.cpp:122-148 | a uniform write leaves every other uniform synchronised and makes the written one current |
| Texture.MovementKeysShape | src/ch3-texture/Texture.cpp:83-95 | the movement block changes only the offsets and the log |
| Texture.MixKeysShape | src/ch3-texture/Texture.cpp:107-113 | the mixing block changes only `mixer` and the log |
| Texture.FrameFlip | src/ch3-texture/Texture.cpp:79-105 | `flip` is negated exactly when the latch fires, the latch ends as "space up", and escape sets the close flag |
| Texture.RunFlip | src/ch3-texture/Texture.cpp:97-105 | after any run, `flip` is its start value negated once per firing of the latch |
| Texture.UpBeforeDown | src/ch3-texture/Texture.cpp:107-113 | UP is applied before DOWN: at full mix with both held, 1.0 and then 0.98 are sent |
| Texture.TextureScene.constructor | src/ch3-texture/Texture.cpp:98-145 | the statics start at their initialisers |
| Texture.TextureScene.UpdateHorizontalOffset | src/ch3-texture/Texture.cpp:116-123 | the in-place update is `HorizontalOffset` |
| Texture.TextureScene.UpdateVerticalOffset | src/ch3-texture/Texture.cpp:125-132 | the in-place update is `VerticalOffset` |
| Texture.TextureScene.UpdateHorizontalFlip | src/ch3-texture/Texture.cpp:134-140 | the in-place update is `Flipped` |
| Texture.TextureScene.UpdateTextureMix | src/ch3-texture/Texture.cpp:142-149 | the in-place update is `TextureMix` |
| Texture.TextureScene.MovementBlock | src/ch3-texture/Texture.cpp:83-95 | the movement block is `MovementKeys` |
| Texture.TextureScene.FlipBlock | src/ch3-texture/Texture.cpp:97-105 | the flip block is `SpaceKey` |
| Texture.TextureScene.MixBlock | src/ch3-texture/Texture.cpp:107-113 | the mixing block is `MixKeys` |
| Texture.TextureScene.ProcessInputs | src/ch3-texture/Texture.cpp:76-114 | one call is exactly one `Frame` |
| Matrix.HorizontalOffset | src/ch4-matrix/Matrix.cpp:135-141 | `updateHorizontalOffset`: the static accumulator grows unclamped; `translation.x` gets its clamp to [-1, 1] |
| Matrix.VerticalOffset | src/ch4-matrix/Matrix.cpp:143-149 | `updateVerticalOffset`: the same for `translation.y` |
| Matrix.TextureMix | src/ch4-matrix/Matrix.cpp:151-158 | `updateTextureMix`: clamped to [0, 1], stored and sent as `mixer` |
| Matrix.MatrixScale | src/ch4-matrix/Matrix.cpp:160-164 | `updateMatrixScale`: the member `scale` plus the increment, unbounded |
| Matrix.MatrixRotation | src/ch4-matrix/Matrix.cpp:166-170 | `updateMatrixRotation`: the member `angle` plus the increment, unbounded |
| Matrix.EscapeKey | src/ch4-matrix/Matrix.cpp:82-84 | escape raises the window's close flag |
| Matrix.TranslationKeys | src/ch4-matrix/Matrix.cpp:86-100 | H (and `flips.x` = -1), L (and `flips.x` = 1), J, K in that order |
| Matrix.SpaceKey | src/ch4-matrix/Matrix.cpp:102-110 | negate `flips.y` on a fresh press and disarm the latch, then re-arm it when space is up |
| Matrix.MixKeys | src/ch4-matrix/Matrix.cpp:112-118 | UP (+0.02) then DOWN (-0.02) |
| Matrix.TransformKeys | src/ch4-matrix/Matrix.cpp:120-132 | EQUAL (+0.02 scale), MINUS (-0.02), LEFT (+2 degrees), RIGHT (-2 degrees) |
| Matrix.Frame | src/ch4-matrix/Matrix.cpp:79-133 | `processInputs`: escape, then the translation, flip, mixing and transformation blocks |
| Matrix.Run | src/ch4-matrix/Matrix.cpp:79-133 | successive frames |
| Matrix.InitialInv | src/ch4-matrix/Matrix.cpp:240-243 | initial members and statics satisfy the invariant: translation is the clamp of the accumulators with z = 0, flips ±1, mixer in [0, 1] and synchronised |
| Matrix.TranslationKeysKeepInv | src/ch4-matrix/Matrix.cpp:86-100 | the translation block keeps the translation equal to the clamp of the (unclamped) accumulators, and `flips.x` ±1 |
| Matrix.SpaceKeyKeepsInv | src/ch4-matrix/Matrix.cpp:102-110 | the flip block keeps `flips.y` ±1 |
| Matrix.TextureMixKeepsInv | src/ch4-matrix/Matrix.cpp:151-158 | `mixer` stays in [0, 1] and is the value sent |
| Matrix.MixKeysKeepInv | src/ch4-matrix/Matrix.cpp:112-118 | the mixing block keeps the invariant |
| Matrix.TransformKeysKeepInv | src/ch4-matrix/Matrix.cpp:120-132 | the transformation block keeps the invariant |
| Matrix.FrameKeepsInv | src/ch4-matrix/Matrix.cpp:79-133 | a whole frame keeps the invariant |
| Matrix.RunKeepsInv | src/ch4-matrix/Matrix.cpp:79-170 | any run of frames keeps the invariant, so the translation always lies in [-1, 1] |
| Matrix.TranslationKeysShape | src/ch4-matrix/Matrix.cpp:86-100 | the translation block changes only the accumulators, the translation and `flips.x`, which ends 1 if L was held, else -1 if H was held, else unchanged |
| Matrix.SpaceKeyShape | src/ch4-matrix/Matrix.cpp:102-110 | the flip block negates `flips.y` exactly when the latch fires and re-arms the latch when space is up |
| Matrix.MixKeysOnlyMix | src/ch4-matrix/Matrix.cpp:112-118 | the mixing block changes only `mixer` and the log |
| Matrix.TransformKeysOnlyTransforms | src/ch4-matrix/Matrix.cpp:120-132 | the transformation block adds ±0.02 to `scale` for EQUAL/MINUS and ±2 to `angle` for LEFT/RIGHT, and changes nothing else |
| Matrix.FrameFlips | src/ch4-matrix/Matrix.cpp:82-110 | L wins over H for `flips.x`; `flips.y` is negated exactly when the latch fires; the latch ends as "space up"; escape sets the close flag |
| Matrix.RunFlipsY | src/ch4-matrix/Matrix.cpp:102-110 | after any run, `flips.y` is negated once per firing of the latch |
| Matrix.FrameTransform | src/ch4-matrix/Matrix.cpp:120-132 | over a whole frame, `scale` and `angle` change only by the transformation keys' increments |
| Matrix.HoldingL | src/ch4-matrix/Matrix.cpp:135-141 | holding L for n frames adds n × 0.02 to the horizontal accumulator with no bound, while the translation is its clamp |
| Matrix.WindUp | src/ch4-matrix/Matrix.cpp:138-140 | after 60 frames of L the accumulator is 1.2 with the quad at 1.0, and a frame of H leaves the quad at 1.0 (accumulator 1.18) |
| Matrix.HoldingMinus | src/ch4-matrix/Matrix.cpp:160-164 | holding MINUS for n frames lowers the scale by n × 0.02 with no bound |
| Matrix.ScaleCrossesZero | src/ch4-matrix/Matrix.cpp:160-164 | from the start, 50 frames of MINUS make the scale 0 and 51 make it negative |
| Matrix.MatrixScene.constructor | src/ch4-matrix/Matrix.cpp:240-243 | the members and statics start at their initialisers |
| Matrix.MatrixScene.UpdateHorizontalOffset | src/ch4-matrix/Matrix.cpp:135-141 | the in-place update is `HorizontalOffset` |
| Matrix.MatrixScene.UpdateVerticalOffset | src/ch4-matrix/Matrix.cpp:143-149 | the in-place update is `VerticalOffset` |
| Matrix.MatrixScene.UpdateTextureMix | src/ch4-matrix/Matrix.cpp:151-158 | the in-place update is `TextureMix` |
| Matrix.MatrixScene.UpdateMatrixScale | src/ch4-matrix/Matrix.cpp:160-164 | the in-place update is `MatrixScale` |
| Matrix.MatrixScene.UpdateMatrixRotation | src/ch4-matrix/Matrix.cpp:166-170 | the in-place update is `MatrixRotation` |
| Matrix.MatrixScene.TranslationBlock | src/ch4-matrix/Matrix.cpp:86-100 | the translation block is `TranslationKeys` |
| Matrix.MatrixScene.FlipBlock | src/ch4-matrix/Matrix.cpp:102-110 | the flip block is `SpaceKey` |
| Matrix.MatrixScene.MixBlock | src/ch4-matrix/Matrix.cpp:112-118 | the mixing block is `MixKeys` |
| Matrix.MatrixScene.TransformBlock | src/ch4-matrix/Matrix.cpp:120-132 | the transformation block is `TransformKeys` |
| Matrix.MatrixScene.ProcessInputs | src/ch4-matrix/Matrix.cpp:79-133 | one call is exactly one `Frame` |
| CShading.Offset | src/ch2-shaders/shading.c:89-96 | `updateOffset`: the static offset plus the increment, clamped by the macro to [-1, 1], stored and sent as `offset` |
| CShading.SetFlip | src/ch2-shaders/shading.c:81-86 | one `shader_setInt` of `flip` |
| CShading.EscapeKey | src/ch2-shaders/shading.c:72-74 | escape raises the window's close flag |
| CShading.ArrowKeys | src/ch2-shaders/shading.c:75-80 | RIGHT (+0.02) then LEFT (-0.02) |
| CShading.FlipKeys | src/ch2-shaders/shading.c:81-86 | DOWN sends -1, then UP sends 1 |
| CShading.Frame | src/ch2-shaders/shading.c:69-87 | `processInputs`: escape, RIGHT, LEFT, DOWN, UP |
| CShading.Run | src/ch2-shaders/shading.c:69-87 | successive frames |
| CShading.InitialInv | src/ch2-shaders/shading.c:92 | the offset starts at 0, in range and synchronised; `flip` has not been sent |
| CShading.OffsetKeepsInv | src/ch2-shaders/shading.c:89-96 | the offset stays in [-1, 1] and is the value sent as `offset` |
| CShading.SetFlipKeepsInv | src/ch2-shaders/shading.c:81-86 | writing ±1 to `flip` keeps the invariant |
| CShading.FrameKeepsInv | src/ch2-shaders/shading.c:69-87 | a whole frame keeps the invariant |
| CShading.RunKeepsInv | src/ch2-shaders/shading.c:69-96 | any run of frames keeps the invariant |
| CShading.ArrowKeysKeepFlip | src/ch2-shaders/shading.c:75-80 | RIGHT/LEFT change neither the close flag nor the last `flip` sent |
| CShading.FrameFlip | src/ch2-shaders/shading.c:72-86 | after a frame the last `flip` sent is 1 if UP was held, else -1 if DOWN was held, else unchanged (a level set in which UP wins); escape sets the close flag |
| CShading.RightBeforeLeft | src/ch2-shaders/shading.c:75-80 | RIGHT is applied before LEFT: at the right edge with both held, 1.0 and then 0.98 are sent |
| CShading.ShadingProgram.constructor | src/ch2-shaders/shading.c:92 | the static offset starts at 0 |
| CShading.ShadingProgram.UpdateOffset | src/ch2-shaders/shading.c:89-96 | the in-place update is `Offset` |
| CShading.ShadingProgram.ArrowBlock | src/ch2-shaders/shading.c:75-80 | the RIGHT/LEFT lines are `ArrowKeys` |
| CShading.ShadingProgram.FlipBlock | src/ch2-shaders/shading.c:81-86 | the DOWN/UP lines are `FlipKeys` |
| CShading.ShadingProgram.ProcessInputs | src/ch2-shaders/shading.c:69-87 | one call is exactly one `Frame` |
| CTexture.LoadImage | src/ch3-texture/texture.c:123-134 | a NULL path gives the empty image and one stderr line; otherwise the image is the decoder's; the decoder runs exactly when the path is not NULL, and only on that path |
| CTexture.NullPathIgnoresDecoder | src/ch3-texture/texture.c:126-130 | with a NULL path the result does not depend on the decoder and has no data |
| CTexture.Offset | src/ch3-texture/texture.c:168-175 | `updateOffset`: clamped by the macro to [-1, 1], stored and sent as `offset` |
| CTexture.Mix | src/ch3-texture/texture.c:177-184 | `updateMix`: clamped by the macro to [0, 1], stored and sent as `mixer` |
| CTexture.Direction | src/ch3-texture/texture.c:145-149 | one `shader_setInt` of `direction` |
| CTexture.ArrowKeys | src/ch3-texture/texture.c:143-150 | RIGHT moves by +0.02 and sends direction 1, then LEFT moves by -0.02 and sends -1 |
| CTexture.SpaceKey | src/ch3-texture/texture.c:151-159 | negate and send the static `flip` on a fresh press and disarm the latch, then re-arm it when space is up |
| CTexture.MixKeys | src/ch3-texture/texture.c:160-165 | DOWN (-0.02) then UP (+0.02) |
| CTexture.Frame | src/ch3-texture/texture.c:136-166 | `processInputs`: escape, arrows, space, then mixing |
| CTexture.Run | src/ch3-texture/texture.c:136-166 | successive frames |
| CTexture.InitialInv | src/ch3-texture/texture.c:139-183 | initial statics: offset 0, mixer 0.5, flip 1, latch armed, nothing sent |
| CTexture.WriteKeepsOthers | src/ch3-texture/texture.c:145-183 | a uniform write leaves the other uniforms as they were and makes the written one current |
| CTexture.OffsetKeepsInv | src/ch3-texture/texture.c:168-175 | the offset stays in [-1, 1] and is the value sent |
| CTexture.MixKeepsInv | src/ch3-texture/texture.c:177-184 | `mixer` stays in [0, 1] and is the value sent |
| CTexture.DirectionKeepsInv | src/ch3-texture/texture.c:145-149 | `direction` is only ever sent as ±1 |
| CTexture.ArrowKeysKeepInv | src/ch3-texture/texture.c:143-150 | the RIGHT/LEFT lines keep the invariant |
| CTexture.SpaceKeyKeepsInv | src/ch3-texture/texture.c:151-159 | the space lines keep `flip` ±1 and synchronised |
| CTexture.MixKeysKeepInv | src/ch3-texture/texture.c:160-165 | the DOWN/UP lines keep the invariant |
| CTexture.FrameKeepsInv | src/ch3-texture/texture.c:136-166 | a whole frame keeps the invariant |
| CTexture.RunKeepsInv | src/ch3-texture/texture.c:136-184 | any run of frames keeps the invariant |
| CTexture.FrameFlip | src/ch3-texture/texture.c:140-159 | `flip` is negated exactly when the latch fires, the latch ends as "space up", and escape sets the close flag |
| CTexture.RunFlip | src/ch3-texture/texture.c:151-159 | after any run, `flip` is its start value negated once per firing of the latch |
| CTexture.FirstPressSendsMinusOne | src/ch3-texture/texture.c:151-155 | the first press of space sends `flip` = -1 and nothing else |
| CTexture.ArrowKeysDirection | src/ch3-texture/texture.c:143-150 | after the arrow lines, `direction` is -1 if LEFT was held, else 1 if RIGHT was held, else unchanged |
| CTexture.MixKeysKeepDirection | src/ch3-texture/texture.c:160-165 | the mixing lines leave `direction` alone |
| CTexture.FrameDirection | src/ch3-texture/texture.c:143-165 | over a whole frame, LEFT's `direction` wins over RIGHT's, and without arrows it is unchanged |
| CTexture.DownBeforeUp | src/ch3-texture/texture.c:160-165 | DOWN is applied before UP: at zero mix with both held, 0.0 and then 0.02 are sent |
| CTexture.TextureProgram.constructor | src/ch3-texture/texture.c:139-180 | the statics start at their initialisers |
| CTexture.TextureProgram.UpdateOffset | src/ch3-texture/texture.c:168-175 | the in-place update is `Offset` |
| CTexture.TextureProgram.UpdateMix | src/ch3-texture/texture.c:177-184 | the in-place update is `Mix` |
| CTexture.TextureProgram.ArrowBlock | src/ch3-texture/texture.c:143-150 | the arrow lines are `ArrowKeys` |
| CTexture.TextureProgram.SpaceBlock | src/ch3-texture/texture.c:151-159 | the space lines are `SpaceKey` |
| CTexture.TextureProgram.MixBlock | src/ch3-texture/texture.c:160-165 | the DOWN/UP lines are `MixKeys` |
| CTexture.TextureProgram.ProcessInputs | src/ch3-texture/texture.c:136-166 | one call is exactly one `Frame` |
| Lifecycle.FirstClose | src/BaseApplication.hpp:21 | the loop stops at the first check that answers "close": that answer is true and all earlier ones are false |
| Lifecycle.Iterations | src/BaseApplication.hpp:21-25 | `n` turns of the loop, each a close check, processInputs, render and polling |
| Lifecycle.Driven | src/BaseApplication.hpp:20-29 | a successful run: initialisation, setup, the turns, the final close check, teardown, terminate |
| Lifecycle.StoppedCounts | src/BaseApplication.hpp:15-18 | a run that stops after initialisation calls no hook and terminates GLFW once |
| Lifecycle.IterationsCount | src/BaseApplication.hpp:21-25 | n turns of the loop hold n close checks, processInputs, renders and polls, and nothing else |
| Lifecycle.DrivenCount | src/BaseApplication.hpp:20-29 | in a successful run each hook or terminate event occurs in setup, the loop or the tail only |
| Lifecycle.DrivenCounts | src/BaseApplication.hpp:20-29 | a successful run calls setup, teardown and terminate once each, and processInputs, render and poll once per turn |
| Lifecycle.DrivenOrder | src/BaseApplication.hpp:20-29 | setup comes right after initialisation; teardown then terminate come last; each processInputs follows a close check and is followed by render and then polling |
| Application.InitTrace | src/BaseApplication.hpp:33-68 | `init`: glfwInit, window creation and context, GLAD, stopping at the first failure with its "init: " error line |
| Application.RunTrace | src/BaseApplication.hpp:12-30 | `run`: a failed init followed by cleanup, or the driven run |
| Application.InitStopsAtFirstFailure | src/BaseApplication.hpp:33-68 | a window is created only after GLFW is up, and GLAD is loaded only with a window; an error line is printed exactly when a step fails, and it is the last thing `init` does |
| Application.RunFailure | src/BaseApplication.hpp:12-18 | after a failed init no hook runs, GLFW is terminated once and last, and the error line is right before it |
| Application.RunSuccess | src/BaseApplication.hpp:12-30 | after a successful init: setup once, first; one processInputs, render and poll per loop turn, each after a close check; then teardown and terminate once each, last |
| Application.BaseApplication.constructor | src/BaseApplication.hpp:90 | a new application has no window and has done nothing |
| Application.BaseApplication.Init | src/BaseApplication.hpp:33-68 | returns 0 exactly when all three steps succeed, else -1; records `InitTrace`; sets `window` once GLFW is up |
| Application.BaseApplication.Cleanup | src/BaseApplication.hpp:75-80 | terminates GLFW and always leaves `window` null |
| Application.BaseApplication.WindowShouldClose | src/BaseApplication.hpp:21 | returns the platform's next close answer and records the check |
| Application.BaseApplication.Call | src/BaseApplication.hpp:20-26 | a hook call or poll is recorded as its event, and nothing else changes |
| Application.BaseApplication.MainLoop | src/BaseApplication.hpp:21-25 | the loop runs exactly the turns before the first "close" answer and ends with the check that stopped it |
| Application.BaseApplication.Run | src/BaseApplication.hpp:12-30 | returns 0 on a working platform and -1 otherwise; records exactly `RunTrace`; leaves no window |
| CMain.Init | src/main.c:21-37 | returns 0 exactly when `glfwInit` succeeds, else -1 |
| CMain.LogAndExit | src/main.c:74-82 | prints the message with a newline only when it is not NULL, and terminates GLFW last |
| CMain.ExitStatus | src/main.c:81 | the status seen by the parent is the exit code modulo 256 |
| CMain.ExitStatuses | src/main.c:71-81 | a failed start is seen as status 255 and a clean exit as 0 |
| CMain.Failure | src/main.c:43-55 | the message `main` passes to `logAndExit` for the first failing step |
| CMain.Reached | src/main.c:43-55 | the initialisation calls `main` makes up to the first failure |
| CMain.MainTrace | src/main.c:39-72 | `main`: the initialisation reached plus `logAndExit`, or the driven run |
| CMain.ReachedStopsAtFirstFailure | src/main.c:43-55 | a window is created only after GLFW is up, and GLAD is loaded only with a window |
| CMain.MainFailure | src/main.c:43-55 | after a failed step no hook runs, the step's message is the only stderr line, and GLFW is terminated once, last |
| CMain.MainSuccess | src/main.c:39-72 | setup once, first; one processInputs, render and poll per loop turn, each after a close check; then teardown and terminate once each, last |
| CMain.SameAsBaseApplication | src/main.c:39-72 | on a working platform the C and C++ drivers produce the same trace of modelled events (the window hints, which differ, are not modelled); on a failing one they differ only in the error line, which C++ prefixes with "init: " |
| CMain.EventLoop | src/main.c:62-66 | the loop runs exactly the turns before the first "close" answer and ends with the check that stopped it |
| CMain.RunMain | src/main.c:39-72 | returns 0 on a working platform and -1 otherwise, and does exactly `MainTrace` |

## Left out

- Which shader program is current is not modelled. Every uniform write is taken to reach the program, and `Uniforms.Current` is the last value sent. In `Shading.cpp` and `shading.c` the writes of the first frame come before any `glUseProgram`, so OpenGL drops them; until the next write the GPU keeps the shader's default. For example, a space press in frame 1 of `Shading.cpp` leaves the GPU's `flip` at 0 while the scene holds -1.
- The window hints are not modelled, including `GLFW_OPENGL_FORWARD_COMPAT`, which `main.c` always requests and `BaseApplication` requests only on Apple systems. `CMain.SameAsBaseApplication` compares the modelled traces only.
- All OpenGL, GLFW and GLAD effects are left out: buffers, textures, draw calls, viewport, buffer swaps and window hints. Key states are inputs, the close flag is a field, and uniform writes go to a log.
- The framebuffer resize callbacks are left out (`src/BaseApplication.hpp:82-86`, `src/main.c:85-89`). Each is one `glViewport` call.
- Image decoding is left out. `CTexture.LoadImage` takes the decoder as a parameter. The C++ `Image` wrapper is not part of this model.
- Shader compilation and the shader wrappers (`Shader.cpp`, `shader.c`) are not part of this model.
- The glm matrix composition and the `sin(glfwGetTime())` scale of `Matrix.cpp` are not modelled. They are floating-point linear algebra in an external library.
- The triangle chapters (`triangle.c`, `HelloTriangle.cpp`) are left out. They only add GL setup and the escape check already modelled here.
- Float rounding is not modelled: every `float` is a `real`. The following hold in exact arithmetic only. With 32-bit floats, repeated steps of 0.01f or 0.02f drift, so the counts can be off by one step and the values can differ in the last bits.
  - Step counts: `Utils.AdvancesWhenDrained` (with float32, draining 1.0 by 0.01f can take one step more), `Matrix.HoldingL`, `Matrix.HoldingMinus`, `Matrix.WindUp` and `Matrix.ScaleCrossesZero`.
  - The `Utils.Bounded` shape and its lemmas `Utils.DefaultBounded`, `Utils.UpdateKeepsBounded` and `Utils.IterateKeepsBounded`.
  - Every concrete value: `Shading.HBeforeL`, `Texture.UpBeforeDown`, `CShading.RightBeforeLeft`, `CTexture.DownBeforeUp`, `Utils.NoClampingExample`, `Utils.ScrollingColourClient` and `CUtils.TwoCallersSharePhase`.

  The range bounds, flip signs, key order and toggle counts do not depend on rounding. The bounds come from `clamp`, and the flips are exact ±1.
- Non-terminating runs are not modelled. `Application.BaseApplication.Run` and `CMain.RunMain` require the close flag to be raised eventually when initialisation succeeds; otherwise the source loops forever.
- Application.BaseApplication.Run: the hooks `setup`, `processInputs`, `render` and `teardown` are recorded as events. Their effects are the per-scene models, not composed with the driver.
- Application.BaseApplication.MainLoop and CMain.EventLoop: the `while` loop of `run` and `main` is a method of its own.
- Shading.ShadingScene.ProcessInputs and the other `ProcessInputs` methods: each runs one helper method per key group of the source (movement, flip, mixing, transformation).
- CMain.RunMain: `exit(-1)` inside `logAndExit` is modelled as `main` returning -1 right after `logAndExit`'s effects. Nothing of the process runs after it in either case.
- CUtils.ColourUpdater.UpdateColours: the `Colour *` argument is an object, so the model rules out the pointer aliasing the static phase, which C cannot do either. A NULL colour pointer is not modelled (the source dereferences it).
- Function-local statics (`current_offset`, `flip`, `mixer`, `is_space_released`, `was_released`, the C colour phase) are fields of the object that owns the function. A fresh object starts them at their initialisers, as program start does.
