# fluids-experiments: the discrete core of the render loop

This project models the parts of `src/main.js` that are discrete. The rest of
the program is GPU shader numerics and three.js set-up.

- **Pointer state** (`pointer.dfy`, module `Pointer`). Two shared
  4-component vectors, `mouse` and `prevMouse`, are updated in place by the
  `mousemove` and `mouseleave` listeners. The model has the two shader guards
  that read them: the velocity solver's drag-force guard
  `mouse.w > 1. && prevMouse.z > 1.` and the ink pass's splat guard
  `uMouse.z > 0.0 && prevMouse.z > 0.0`. The class `PointerTracker` holds the
  two vectors; a ghost list of the events seen ties them to the pure replay
  `Replay`. No listener writes a non-zero `w`, so the forcing guard can
  never be true. The splat guard holds exactly when the two latest events were moves.
- **Render targets and the tick loop** (`render_loop.dfy`, module
  `RenderLoop`). The eight `WebGLRenderTarget`s are objects of class
  `RenderTarget`. `clone()` allocates a fresh one. The class `Pipeline` holds:
  - the eight `let`-bound handles;
  - the texture uniforms of the five materials;
  - the ink pass's `uTime`;
  - the renderer's current target;
  - the passes drawn in the current tick.

  Each `renderer.render` call is recorded as a `Pass`: the stage, the
  textures bound to its material, and the target it wrote (or the canvas).
  `Tick` follows the source step by step, with the four destructuring swaps as
  field exchanges. It is proved equal to a closed-form `Frame` of the handles
  at the start of the tick, and the handles at its end are `Exchanged`. The
  lemmas about `Frame` and `Run` (the handles at the start of tick `n`) prove:
  - no pass samples the target it draws into;
  - the C, ink and screen passes read what the previous pass of the same tick
    drew;
  - B reads A's input rather than A's output;
  - the colour buffer of the ink pass feeds back from one tick to the next;
  - the pairs keep their targets and alternate with period two.
- **`hash1`** (`hash.dfy`, module `Hash`). The integer part — shift, xor,
  multiply, add, mask, all wrapping modulo 2^32 — is modelled on `bv32`. The
  masked value never exceeds `0x7fffffff`, the divisor, and it keeps every
  bit of the mixed word except the top one, so it is the mix reduced modulo
  2^31.

The source has one `sizes` object (src/main.js:4-7), read both by the
`mousemove` listener and when the targets are allocated. The model passes the
window size separately to `PointerTracker` (as reals, the listener's
divisors) and to `Pipeline` (as the targets' integer width and height).
Nothing in the model ties the two together, and no property here needs them to
agree.

Three facts about the code shape the model:
- **Input of pass B.** Pass B binds `rt2` after the swap at line 392. That
  is the target A read this tick, which is A's output from the previous tick
  (the comment at line 396 says "take prev result from A"). B does not see A's
  output from the current tick (`BufferBReadsAInput`, `FeedbackAcrossTicks`).
- **Forcing guard.** Inside the solver, the guard's `prevMouse` operand is
  the texel at (0, 0) of the velocity field, sampled at line 119, not the
  pointer's previous position. Its first operand, `mouse.w`, is never
  non-zero, so the force is never applied (`ForcingGuardUnreachable`).
- **Resize.** The resize handler in `src/init.js` reassigns only its own
  parameters, the camera and the renderer size. It updates neither `sizes`
  nor any target, so the eight targets keep the size they had at load time.

## Model

| member | source | states |
|---|---|---|
| `Hash.Hash1Bits` | src/main.js:157-162 | the masked integer of `hash1` is at most `0x7fffffff`, so the quotient is in [0, 1] |
| `Hash.MaskIsRemainder` | src/main.js:159-161 | for every input, the masked integer is the 32-bit wrapped mix when the mix's top bit is clear, and the mix less 2^31 otherwise, i.e. the mix modulo 2^31 |
| `Pointer.PointerTracker.constructor` | src/main.js:9-10 | both vectors start at (0, 0, 0, 0) and no event has been seen |
| `Pointer.PointerTracker.OnMouseMove` | src/main.js:11-16 | `prevMouse` becomes the old `mouse`; `mouse.x` is `clientX / width`, `mouse.y` is `1 - clientY / height`, `mouse.z` is 1 and `mouse.w` is unchanged; the state stays the replay of the events |
| `Pointer.PointerTracker.OnMouseLeave` | src/main.js:18-21 | `prevMouse` becomes the old `mouse` and `mouse` becomes (0, 0, 0, 0); the state stays the replay of the events |
| `Pointer.ReplayKeepsWZero` | src/main.js:9-21 | from vectors whose `w` is 0, every sequence of move and leave events leaves both `w` components at 0 |
| `Pointer.ForcingGuardUnreachable` | src/main.js:67 | from the initial vectors, after any events and for any sampled texel, the guard `mouse.w > 1. && prevMouse.z > 1.` is false |
| `Pointer.PointerTracker.ForcingGuard` | src/main.js:67 | the forcing guard evaluated on the live `mouse` vector is always false |
| `Pointer.PressedIffLastMove` | src/main.js:15-20 | after any events from the initial state, `mouse.z` is 1 if the latest event was a move and 0 otherwise |
| `Pointer.SplatGuardIff` | src/main.js:186 | the splat guard `uMouse.z > 0.0 && prevMouse.z > 0.0` holds exactly when the two latest events were both moves |
| `Pointer.PointerTracker.SplatGuard` | src/main.js:186 | the splat guard evaluated on the live vectors is true exactly when the two latest events seen were moves |
| `RenderLoop.RenderTarget.constructor` | src/main.js:255 | a new render target has the requested width and height |
| `RenderLoop.RenderTarget.Clone` | src/main.js:256 | `clone()` returns a freshly allocated target of the same size |
| `RenderLoop.Pipeline.constructor` | src/main.js:255-267 | the eight targets are freshly allocated, pairwise distinct and all of the window's size, `rtc2` included even though it is cloned from `rtb1`; it also sets up the initial texture bindings (B to `rt2`, C to `rtb2`, D to `rtc2` and `colorRT1`, A and the final material to null) and `uTime` = 0.1 |
| `RenderLoop.Pipeline.Render` | src/main.js:390 | a render call appends one pass that reads the textures bound to the stage's material and writes the renderer's current target |
| `RenderLoop.Pipeline.DrawBufferA` | src/main.js:387-392 | A samples `rt1`, draws into `rt2`, then exactly the A pair is exchanged; the other five texture bindings and `uTime` stay as they were |
| `RenderLoop.Pipeline.DrawBufferB` | src/main.js:395-401 | B samples `rt2` as it is after A's swap, draws into `rtb1`, then exactly the B pair is exchanged; the other five texture bindings and `uTime` stay as they were |
| `RenderLoop.Pipeline.DrawBufferC` | src/main.js:404-410 | C samples `rtb2` as it is after B's swap, draws into `rtc1`, then exactly the C pair is exchanged; the other five texture bindings and `uTime` stay as they were |
| `RenderLoop.Pipeline.DrawInk` | src/main.js:413-420 | the ink pass samples `rtc2` and `colorRT1`, draws into `colorRT2`, and sets `uTime` to `performance.now() / 1000`; no handle changes and the other four texture bindings stay as they were |
| `RenderLoop.Pipeline.DrawFinal` | src/main.js:423-426 | the final pass samples `colorRT2` and draws to the canvas; no handle, no other texture binding and not `uTime` changes |
| `RenderLoop.Pipeline.DrawPasses` | src/main.js:385-426 | the five passes of a tick are `Frame` of the handles at the start of the tick, and the three velocity pairs end exchanged; at the end, A and B are bound to the starting `rt1`, C to `rtb1`, D to `rtc1` and `colorRT1`, the final material to `colorRT2`, and the renderer targets the canvas |
| `RenderLoop.Pipeline.Tick` | src/main.js:384-432 | one tick draws `Frame` of the starting handles, no pass of it samples its own target, every pair ends exchanged, and the invariant (handles are `Run` of the initial distinct targets after the ticks so far) is kept; the end-of-tick texture bindings (A and B to the starting `rt1`, C to `rtb1`, D to `rtc1` and `colorRT1`, final to `colorRT2`), the canvas as render target and `uTime` = `nowMs / 1000` are stated too |
| `RenderLoop.SwapsAreLocal` | src/main.js:392 | each of the four swaps (lines 392, 401, 410, 429) exchanges the two handles of its own pair and leaves the other six unchanged |
| `RenderLoop.ExchangedKeepsPairs` | src/main.js:392-429 | after a full tick each pair holds the same two targets with roles exchanged, distinctness and size are kept, and two ticks restore every handle |
| `RenderLoop.RunKeepsPairs` | src/main.js:384-432 | after any number of ticks each pair still holds its two original targets, and the handles stay distinct and of one size |
| `RenderLoop.RunParity` | src/main.js:384-432 | after an even number of ticks the handles are the initial ones; after an odd number every pair is exchanged |
| `RenderLoop.NoPassReadsItsOwnTarget` | src/main.js:387-426 | with distinct targets, none of the five passes of a tick draws into a texture it samples |
| `RenderLoop.NoPassReadsItsOwnTargetEver` | src/main.js:387-426 | on every tick of a run from distinct targets, no pass draws into a texture it samples |
| `RenderLoop.PassesChainWithinTick` | src/main.js:397-423 | C samples what B drew, the ink pass samples what C drew, and the screen pass samples what the ink pass drew, in the same tick |
| `RenderLoop.SourcesWithinTick` | src/main.js:387-423 | within a tick, an input was drawn by an earlier pass of that tick exactly for the first input of C, ink and screen; A's input, B's input and the ink pass's `colorTexture` were not |
| `RenderLoop.SourcesAcrossTicks` | src/main.js:387-429 | from the second tick on, every input not drawn earlier in the tick was drawn by a pass of the previous tick |
| `RenderLoop.BufferBReadsAInput` | src/main.js:387-396 | B samples the same texture A samples in that tick, and never the one A has just drawn |
| `RenderLoop.FeedbackAcrossTicks` | src/main.js:387-429 | from the second tick on, A and B sample what A drew on the previous tick, and the ink pass's `colorTexture` is what the ink pass drew on the previous tick |

## Left out

- The velocity solver `fluidSolver` and the rest of the buffer-A shader
  (src/main.js:37-137), including the nudge at lines 127-134. This is
  floating-point stencil numerics with texture sampling. Only the forcing
  guard at line 67 is modelled.
- The ink shader body apart from `hash1` and the splat guard (lines 166-198:
  `hsv2rgb`, advection, splat intensity, clamp and decay), and the final
  tone-map shader (lines 202-241). These are float colour maths and bilinear
  sampling.
- `Hash.Hash1Bits`: the conversion of the masked integer to `float` and the
  division by `float(0x7fffffff)` are not modelled, nor is the
  float-to-`uint` conversion of the hash input at line 187. This is float32
  rounding.
- The three.js scene, geometry, material, mesh, camera and renderer
  construction (lines 23-24, 245-252, 269-381). This is a library that is not
  part of this model. `renderer.render` is modelled only as "reads these
  textures, writes this target", and what a target holds is not modelled.
- The re-assignments of `uMouse` and `prevMouse` uniforms in `tick` (lines
  388, 395, 404, 416, 417). They rebind the same shared vector objects
  already bound at construction. Passes do not carry pointer values, and the
  aliasing of the listeners' vectors with the uniforms is represented
  only by the guards reading the live vectors (`PointerTracker.ForcingGuard`,
  `PointerTracker.SplatGuard`).
- `requestAnimationFrame`, the `Clock` and `performance.now` (lines 383-385,
  413, 431). The elapsed time read at line 385 is unused. The model takes
  `performance.now()` as the parameter `nowMs` of `Tick` and does not model
  the scheduling of the next tick.
- The resize handler of `src/init.js`. It is window and camera I/O, and it
  changes no state this model holds.
- Pointer coordinates are exact reals, not float64. `PointerTracker` needs a
  window of positive width and height. A zero-sized window, where JavaScript
  would divide by zero into Infinity or NaN, is not modelled.
- The per-pixel data-parallel execution of the shaders.
