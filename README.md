# doodle, modelled in Dafny

doodle is a small runtime for creative-coding sketches on top of SDL. The
caller configures a sketch with a fluent `DoodleBuilder` (window title and
size, a target frame rate, an initial user state and two callbacks, `setup`
and `draw`), builds it into a `Doodle`, and calls `run`. `run` calls `setup`
once and presents the canvas. It then loops: drain the pending events and
stop at the first quit event, otherwise call `draw`, present and let the
frame clock tick. The bundled example sketch keeps a gray level in
`State { change, color }` that climbs from 0 to 255 and back.

This project models:

- `doodle.dfy`, module `Doodle` (src/lib.rs):
  - the builder is a datatype, with `New` and one setter function per field;
  - `Renderer::new` is a function of an abstract initialisation outcome;
  - `build` is a method that allocates a `Doodle` or returns the initialisation error;
  - `run` is a method of class `Doodle` that loops over a finite sequence of
    event batches and returns the trace of actions it performed
    (`Setup`, `Present`, `Draw`, `Tick`).

  Specification functions (`QuitBatch`, `FirstQuit`, `RunTrace`, `Iterate`,
  `Drained`) describe what `run` does. Lemmas prove ordering and counting
  facts about the trace.
- `simple.dfy`, module `Simple` (examples/simple.rs):
  - the `i16` state, with the `+=` and the `as u8` cast written out;
  - the update as a function `Step`, and the callback body as a method `DrawFrame`;
  - lemmas for the bounds invariant, the lossless cast and the period of 512 frames;
  - the example's `main`, wiring `Build` and `Run` together.

Callbacks are functions `T -> T` on the user state. The drawing they do on the
renderer is not modelled. The event pump is a parameter: one batch of events
per loop iteration. The frame clock appears only as `Tick` actions. The
success or failure of SDL initialisation is a parameter of `Build`.

Facts about the code that the model keeps:

- `DoodleBuilder::new` sets the name to `""` (`Default` for `&str`).
- No setter and not `build` checks values, so `Fps(0)` stores 0.
- From `(1, 0)` the color reaches 255 after frame 255 with `change` still 1,
  and the sign flips on frame 256.
- The example's `State` derives `Default`, which is `(0, 0)`; this is the
  constant `Simple.DefaultState` that the example's builder starts from before
  `.state(...)` replaces it (examples/simple.rs:4-8, 16-19).

## Model

| member | source | states |
|---|---|---|
| `Doodle.NewRenderer` | src/lib.rs:159-166 | renderer creation fails exactly when initialisation fails, with that error; on success the window has the requested title, width and height |
| `Doodle.DoodleBuilder.New` | src/lib.rs:75-85 | defaults: name `""`, fps 30, width 800, height 600, state the type's default |
| `Doodle.NewHandlersAreNoops` | src/lib.rs:82-83 | both default handlers leave every state unchanged |
| `Doodle.DoodleBuilder.Name` | src/lib.rs:86-89 | sets the name; every other field is unchanged |
| `Doodle.DoodleBuilder.Fps` | src/lib.rs:90-93 | stores the frame rate as given, 0 included; every other field is unchanged |
| `Doodle.DoodleBuilder.Width` | src/lib.rs:94-97 | sets the width; every other field is unchanged |
| `Doodle.DoodleBuilder.Height` | src/lib.rs:98-101 | sets the height; every other field is unchanged |
| `Doodle.DoodleBuilder.State` | src/lib.rs:102-105 | sets the initial state; every other field is unchanged |
| `Doodle.DoodleBuilder.Setup` | src/lib.rs:106-109 | sets the setup handler; every other field is unchanged |
| `Doodle.DoodleBuilder.Draw` | src/lib.rs:110-113 | sets the draw handler; every other field is unchanged |
| `Doodle.LastWriteWins` | src/lib.rs:86-113 | calling a setter twice gives the same builder as calling it once with the second value, for every setter |
| `Doodle.Build` | src/lib.rs:114-122 | succeeds exactly when renderer initialisation succeeds; on failure returns that error and no `Doodle`; on success a new `Doodle` carries state, fps, setup and draw unchanged, and a renderer opened with the builder's name, width and height |
| `Doodle.Doodle.constructor` | src/lib.rs:125-131 | a `Doodle` holds exactly the fields it is given |
| `Doodle.FirstQuit` | src/lib.rs:139-144 | the position of the first quit event in a batch: no earlier event is a quit; it equals the batch length exactly when the batch holds no quit |
| `Doodle.QuitBatch` | src/lib.rs:138-144 | the index of the first batch with a quit: no earlier batch has one, and the batch at that index (if any) does |
| `Doodle.Doodle.Run` | src/lib.rs:134-150 | trace is setup, present, then draw-present-tick once per batch before the first quit batch; the final state is `draw` applied that many times to `setup(state)`; returns `Ok(())` when a quit was drained, and the events examined stop at the first quit |
| `Doodle.FramesLength` | src/lib.rs:145-147 | `n` iterations produce `3n` actions |
| `Doodle.FramesAt` | src/lib.rs:145-147 | the iterations' actions cycle draw, present, tick |
| `Doodle.FramesCount` | src/lib.rs:145-147 | `n` iterations draw, present and tick `n` times each and never call setup |
| `Doodle.SetupOnceFirst` | src/lib.rs:136-137 | setup happens exactly once, as the first action; it is followed at once by one present; no draw comes before position 2 |
| `Doodle.RunTraceAround` | src/lib.rs:145-147 | a draw at any position is followed by present, then tick; a present after the first one directly follows a draw |
| `Doodle.DrawPresentTick` | src/lib.rs:145-147 | the same for every position of the trace at once |
| `Doodle.RunTraceCounts` | src/lib.rs:136-148 | a run of `k` iterations draws `k` times, presents `k + 1` times and ticks `k` times |
| `Doodle.DrainedStopsAtQuit` | src/lib.rs:139-144 | a quit is drained exactly when some batch holds one; it is then the last event examined, and no earlier examined event is a quit |
| `Doodle.IterateAdd` | src/lib.rs:145 | applying the draw handler `m + n` times is applying it `m` times and then `n` times |
| `Simple.AddI16` | examples/simple.rs:24 | `i16` addition: exact inside the range, wraps by 2^16 outside it |
| `Simple.AsU8` | examples/simple.rs:23 | the cast keeps the value modulo 256, and keeps it unchanged when it lies in 0..255 |
| `Simple.Step` | examples/simple.rs:24-31 | the draw closure's state update, installed as the draw handler: the new color is always in 0..255, and the step either stays or is reset to -1 at 255 or to 1 at 0; its full meaning is given by `StepCases` and `DrawFrame` |
| `Simple.Gray` | examples/simple.rs:23 | the gray `c` the frame paints is the pre-update color, equal to it whenever the color lies in 0..255 |
| `Simple.DrawFrame` | examples/simple.rs:22-31 | the callback body paints the pre-update color and leaves the state `Step(s)`; under the invariant the gray equals the color and the invariant still holds afterwards |
| `Simple.StepCases` | examples/simple.rs:24-31 | under the invariant the sum does not overflow; above 255 it clamps to 255 with step -1, below 0 it clamps to 0 with step 1, otherwise color becomes the sum and the step is kept |
| `Simple.StepKeepsInv` | examples/simple.rs:24-31 | `0 <= color <= 255` and `change` in {-1, 1} are preserved by one update |
| `Simple.GrayIsColor` | examples/simple.rs:23 | under the invariant `color as u8` equals `color` |
| `Simple.InvAlways` | examples/simple.rs:16-31 | starting from `(1, 0)`, every frame's state satisfies the invariant |
| `Simple.Rising` | examples/simple.rs:16-31 | after `n <= 255` frames the state is `(1, n)` |
| `Simple.TurnAtWhite` | examples/simple.rs:25-27 | after frame 256 the state is `(-1, 255)`: clamped, step flipped |
| `Simple.Falling` | examples/simple.rs:24-31 | after `256 + j` frames (`j <= 255`) the state is `(-1, 255 - j)` |
| `Simple.Period` | examples/simple.rs:28-30 | after 512 frames the state is back to `(1, 0)` |
| `Simple.Periodic` | examples/simple.rs:16-31 | the state sequence repeats with period 512 |
| `Simple.Config` | examples/simple.rs:11-35 | the example's builder: name "Test", 600 by 400, 60 fps, state `(1, 0)`, a no-op setup and `Step` as draw |
| `Simple.RunExample` | examples/simple.rs:10-38 | a failed initialisation means no sketch runs; otherwise the trace has one draw per batch before the first quit, and the final state is the bounce applied that many times, within bounds |

## Left out

- SDL, image and TTF initialisation, window and canvas creation (`init_sdl`, the body of `Renderer::new`): these are foreign library calls. Only their outcome is modelled, as the `failure` parameter.
- `set_draw_color`, `draw_color`, `clear` and `present` on `Renderer`: they pass straight through to the SDL canvas. `present` appears only as an action in the trace, and the example's painting of `Color::RGB(c, c, c)` appears only as the value `c` that `DrawFrame` returns.
- `fps_clock::FpsClock` pacing: a wall-clock sleep in an external crate. `tick` is only an action in the trace, so no timing property is stated, and `fps` is carried but not used.
- The SDL event pump: replaced by a finite sequence of event batches. `run` in the source loops forever until a quit. When the modelled input runs out before a quit, `Run` returns `None`: the loop would still be running.
- The `From` conversions into `Error`: one-line wrappers over SDL error types that are not modelled. Only the error variants are kept, each with a message.
- The `it_works` test: it needs a display and never ends on its own.
- `Box<Fn(&mut T, &mut Renderer)>` handlers: modelled as functions `T -> T` on the state alone. Effects of a callback on the renderer are not modelled.
- `Simple.AddI16`: models `+=` on `i16` with the wrap-around of a release build. A debug build panics on overflow instead. Under the invariant neither case arises (`StepCases`).
- `Simple.RunExample`: no model of the panic itself. When `unwrap` fails, `RunExample` just reports `built == false`.
