# Mode7 parameter store and controller, in Dafny

This project models the core of `mode7.py`, a pygame demo that fakes a
tilted ground plane. It rotates and zooms a sprite, then squashes its height.

- `renderer.dfy` (module `Renderer`) models the `Mode7` class. It holds the
  zoom, perspective and rotation parameters behind validating setters. Zoom
  must be positive and perspective must lie strictly between 0 and 1; a
  rejected write raises `ValueError`. Rotation is always accepted and stored
  modulo 360. Any change sets the dirty flag, and the `image` getter
  re-renders while the flag is set. Each setter is a method of the class
  (`SetZoom`, `SetPerspective`, `SetRotation`). Each method is proved against
  a function on values (`WriteZoom`, `WritePerspective`, `WriteRotation`),
  and the lemmas state their properties.
- `controller.dfy` (module `Controller`) models the `SimpleTest` class.
  `HandleInput` folds the polled events into `running`, `exit_status` and
  `dirty`, and maps the held keys to the three velocities. `Update` integrates
  the velocities: perspective is accept-or-freeze, and zoom is unguarded.
  `Update` is proved against the function `Step`.

The library is reduced to what the core needs:

- Images are represented by their pixel size (`Size`).
- pygame's `rotozoom` is a function value passed to the `Mode7` constructor,
  so nothing is assumed about the size it produces.
- `smoothscale` is the explicit size arithmetic `(w2, int(h2 * perspective))`.
- Python's `int()` truncation is `Trunc`.
- Python's `% 360` is `Normalize`, computed as `v - 360 * floor(v / 360)`.
- All scalars are exact reals.

Behaviours of the source that the model keeps on purpose:

- The stored perspective starts at 0, outside the setter's range. The class
  invariant admits `0 <= perspective < 1`. The controller's own `p` starts at
  0.5 and stays in `(0, 1)`.
- The dirty flag starts set and is never cleared, so every read of the image
  renders afresh. `Mode7.Valid()` includes `dirty`, and `GetImage` always
  returns a fresh `Render` of the current parameters.
- The rotation setter compares the raw value with the stored normalised
  value. Writing 370 over a stored 10 sets the dirty flag and leaves 10
  stored (`WriteRotationRawCompare`).
- In `update`, z and r advance and the rotation is pushed before the zoom
  setter can raise. A raised `ValueError` is the `Raised` outcome of
  `Update`/`Step`; the renderer's zoom is then unchanged.

## Model

| member | source | states |
|---|---|---|
| `Renderer.Normalize` | mode7.py:60 | `v % 360` lies in [0, 360) and differs from `v` by a whole multiple of 360 |
| `Renderer.NormalizeInRange` | mode7.py:60 | a value already in [0, 360) is stored unchanged |
| `Renderer.NormalizeUnique` | mode7.py:60 | the stored rotation is the unique representative in [0, 360) of `v`'s class modulo 360 |
| `Renderer.NormalizeExamples` | mode7.py:60 | 370 is stored as 10 and -10 as 350 |
| `Renderer.Trunc` | mode7.py:75 | `int(x)` truncates toward zero: for `x >= 0` it is the floor, for `x < 0` the ceiling |
| `Renderer.Render` | mode7.py:72-76 | the rendered image keeps the rotozoomed width; its height is `h2 * perspective` rounded down, so at most `h2` when perspective < 1 |
| `Renderer.WriteZoom` | mode7.py:30-37 | zoom accepts exactly `v > 0`; on success it stores `v` and sets dirty iff `v` differs; otherwise `ValueError` |
| `Renderer.WritePerspective` | mode7.py:43-50 | perspective accepts exactly `0 < v < 1`; on success it stores `v` and sets dirty iff `v` differs; otherwise `ValueError` |
| `Renderer.WriteRotation` | mode7.py:56-60 | rotation always succeeds; it sets dirty iff the raw `v` differs from the stored value, and then stores `Normalize(v)`; zoom and perspective are untouched |
| `Renderer.WriteRotationStoresNormalized` | mode7.py:56-60 | when the stored rotation is normalised, the setter leaves `v mod 360` stored on both branches |
| `Renderer.WriteRotationRawCompare` | mode7.py:58-60 | writing 370 over a clean stored 10 keeps 10 but sets the dirty flag |
| `Renderer.WriteSameIsNoOp` | mode7.py:30-60 | writing the stored value (raw equality for rotation) changes neither the parameter nor the dirty flag |
| `Renderer.WritesKeepDirty` | mode7.py:30-60 | no setter clears the dirty flag |
| `Renderer.WritesKeepInRange` | mode7.py:30-60 | every accepted write keeps zoom > 0, perspective in [0, 1) and rotation in [0, 360) |
| `Renderer.Mode7.constructor` | mode7.py:19-24 | a new store has zoom 1, perspective 0, rotation 0, the dirty flag set and no cached image |
| `Renderer.Mode7.SetZoom` | mode7.py:30-37 | the zoom setter performs `WriteZoom`; on rejection it raises and the state is unchanged |
| `Renderer.Mode7.SetPerspective` | mode7.py:43-50 | the perspective setter performs `WritePerspective`; on rejection it raises and the state is unchanged |
| `Renderer.Mode7.SetRotation` | mode7.py:56-60 | the rotation setter performs `WriteRotation` and leaves `v mod 360` stored |
| `Renderer.Mode7.GetImage` | mode7.py:62-66 | reading the image renders the current parameters into the cache and returns that image |
| `Controller.ApplyEventsMeaning` | mode7.py:100-112 | after the event loop, `running` is false iff it was already false or a quit or escape event came; `exit_status` is 0 after such an event and unchanged otherwise; `dirty` is set iff it was set or a resize came |
| `Controller.PairVelocity` | mode7.py:114-134 | a velocity is one of `+S`, `-S` or 0; it is `+S` iff the first key is held, `-S` iff only the second is, and 0 iff neither is |
| `Controller.VelocitiesFromKeys` | mode7.py:114-134 | up gives `-PERSPECTIVE_SPEED` and beats down; left gives `+ROTATION_SPEED` and beats right; z gives `+ZOOM_SPEED` and beats x; with neither key of a pair held the velocity is 0 |
| `Controller.Step` | mode7.py:136-148 | `p` advances to `p + p_velocity*dt` iff that lies in (0, 1), and the renderer's perspective follows; z and r always advance; the renderer's rotation becomes `r mod 360`; the zoom setter raises iff the new z <= 0, leaving the renderer's zoom unchanged |
| `Controller.StepKeepsRenderer` | mode7.py:136-148 | an update keeps the renderer's parameters in range and its dirty flag set, even when the zoom setter raises |
| `Controller.StepPerspectiveAccepted` | mode7.py:137-143 | from p = 0.5 with the up-key velocity, one second gives p = 0.15 in both controller and renderer |
| `Controller.StepPerspectiveRejected` | mode7.py:137-141 | from p = 0.5 with the up-key velocity, two seconds give -0.2, which is rejected; p and the renderer's perspective are unchanged |
| `Controller.StepZoomUnderflow` | mode7.py:145-148 | zooming out from z = 1 for half a second reaches z = 0; the setter raises after z has advanced and rotation has been pushed |
| `Controller.SimpleTest.constructor` | mode7.py:80-91 | a new controller is stopped, clean, with exit status 0, r = 0, p = 0.5, z = 1, zero velocities and a fresh renderer with no cached image |
| `Controller.SimpleTest.HandleInput` | mode7.py:99-134 | the flags become the event fold `ApplyEvents` of the polled events; the velocities become `PairVelocity` of the held keys |
| `Controller.SimpleTest.Update` | mode7.py:136-148 | the controller and renderer states, and whether the zoom setter raised, are exactly those of `Step` |

## Left out

- pygame I/O: window creation and resizing (`init_screen`, and the call on a resize event), image loading, and the `draw` method with its fill, blit and centring.
- Event polling and key-state queries: the events and the held keys are parameters of `HandleInput`.
- The `size` property: it only returns the loaded image's dimensions, which are the `original` field of `Mode7`.
- The pixel contents produced by `rotozoom` and `smoothscale`: only image sizes are modelled, and `rotozoom`'s size is an arbitrary function of its inputs.
- The `run` loop, its `Clock.tick` frame pacing, its initial `exit_status = 1`, `display.flip`, and the `__main__` block: these are clock- and I/O-driven and use the global `screen`.
- Floating-point rounding: scalars are exact reals. For example, Python's float `%` can return 360.0 for tiny negative inputs; `Normalize` never does.
- Exceptions other than the setters' `ValueError`: reading `_image` before it is set cannot happen, since the dirty flag is set from construction on.
