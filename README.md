# soundshader core in Dafny

This project models the three pieces of the soundshader audio visualiser that
hold its logic, and proves properties of them:

- **AudioController** (`audio/controller.js`) keeps the view window
  `(offsetMin, offsetMax)` over the decoded samples. Every change goes through
  the single gate `setOffsetRange`, which checks that both bounds are finite,
  rounds them, swaps them if reversed and clamps them. Around it sit:
  - `applyZoom`;
  - the pixel-to-sample map `canvasXtoT`;
  - the mouse rules (drag to pan, click, wheel);
  - the `pending_frames` counter that throttles drawing;
  - the partition of a frame into stripes in `drawFrame`;
  - the in-place resampling `downsample2x` / `fixAudioBufferRate`;
  - the truncation of the decoded samples to the waveform buffer.
- **GpuFrameBuffer** (`webgl/framebuffer.js`) is a float texture of
  `width x height` texels with 1 to 4 channels. It has:
  - constructor checks (source type, size versus width and height, size limits);
  - `upload`, which pads or truncates to capacity;
  - `download`, which checks the output length and de-interleaves from a cached RGBA staging array;
  - `attach`, which re-uploads a bound CPU array;
  - `destroy`.
- **GpuTransformProgram** (`webgl/transform.js`) is a shader program with an
  optional output buffer. Its parts are:
  - the output rule of the constructor;
  - `destroy`, which destroys the output before the program;
  - `exec`, which does nothing for the DUMMY target and otherwise uses the program, binds the arguments and draws;
  - `bindArgs`, which walks the declared uniforms in order, checks each argument and dispatches on its type tag.

How JavaScript behaviour is represented:
- JavaScript numbers that can be non-finite are the datatype `Num` (`Finite(real)`, `NaN` or `Inf`).
- `Math.round(x)` is `floor(x + 0.5)`.
- `x | 0` is ToInt32: truncation toward zero, then wrap-around modulo 2^32.
- A read past the end of a typed array yields `undefined`, which arithmetic turns into NaN.

How the GPU side is represented:
- A frame buffer's texture is the sequence of its stored components.
- Each object keeps a log of the GL calls it makes that change or read its state.
- requestAnimationFrame is an explicit FIFO queue of scheduled frames. `pending_frames` is kept equal to the queue's length.

Modules and files:
- `js_values.dfy`: `JsValues`, the number model.
- `arith.dfy`: `Arith`, integer helper lemmas.
- `view_window.dfy`: `ViewWindow`, the pure window arithmetic.
- `controller.dfy`: `Audio`, class `AudioController`.
- `resample.dfy`: `Resample`, the resampling code.
- `framebuffer.dfy`: `FrameBuffer`, class `GpuFrameBuffer`.
- `transform.dfy`: `Transform`, class `GpuTransformProgram`.

Where the code departs from what its own design leads one to expect, the model follows the code:
- **The window can end past the samples.** `setOffsetRange` clamps `max` to `[min + 1, total]`, and `min + 1` wins. When the rounded lower bound reaches `total`, the window becomes `(total, total + 1)`, one past the samples. `ViewWindow.Normalize` states exactly when this happens.
- **Pending frames do not always block drawing.** Only mouseup and the wheel check `pending_frames` before drawing. `setOffsetRange` (and through it click and `applyZoom`) and the end of `start` call `drawFrame` whatever the counter says. So more than one frame can be pending. The model lets the queue grow and proves only the two guards the code has.
- **Clicking before samples exist throws.** A click with ctrl and shift held reads `this.audioSamples.length` before any check, so it throws a TypeError when no samples have been installed. `Audio.AudioController.Click` reports this as `threw`.
- **Resampling keeps the wrong half.** `fixAudioBufferRate` keeps the upper half of each downsampled array, not its averaged first half (see Findings).

## Model

| member | source | states |
|---|---|---|
| JsValues.Round | audio/controller.js:233-234 | `Math.round`: the integer r with r - 0.5 <= x < r + 0.5 (halves round up) |
| JsValues.Trunc | audio/controller.js:87 | truncation toward zero, for both signs |
| JsValues.ToInt32 | audio/controller.js:87 | `x \| 0` lies in [-2^31, 2^31), agrees with truncation modulo 2^32, and equals the truncation inside that range |
| JsValues.Mean | audio/controller.js:423 | `0.5 * a + 0.5 * b` is finite exactly when both are, is then their average, and is NaN when either is NaN |
| ViewWindow.Normalize | audio/controller.js:229-243 | the gate on finite bounds: 0 <= min <= total and max >= min + 1. max <= total except for the window (total, total + 1), which happens exactly when the smaller rounded bound reaches total (with samples present). Otherwise the window lies inside the samples |
| ViewWindow.NormalizeRounds | audio/controller.js:233-243 | the window is built from `Math.round` of the bounds: min is the smaller rounded bound clamped to [0, total]. max is the larger rounded bound when that lies in (min, total]; it is max(min + 1, total) when that bound is past total, and min + 1 when it is not above min |
| ViewWindow.NormalizeSymmetric | audio/controller.js:233-237 | passing the bounds in either order gives the same window |
| ViewWindow.NormalizeKeepsInside | audio/controller.js:239-243 | a window already inside the samples passes the gate unchanged |
| ViewWindow.NormalizeIdempotent | audio/controller.js:229-243 | re-applying the gate to its own result changes nothing, including for the overshooting window |
| ViewWindow.NormalizeScenario | audio/controller.js:239-240 | (-50, 2000) over 1000 samples becomes (0, 1000) |
| ViewWindow.NormalizeOvershoot | audio/controller.js:239-240 | (5000, 6000) over 1000 samples becomes (1000, 1001), past the samples |
| ViewWindow.ZoomSpan | audio/controller.js:282-286 | the factor is first raised to 1, so any factor <= 1 gives total. The span lies in [1, total] when there are samples. For a factor above 1 it is `Math.round(total / value)` held to [1, total]: strictly between 1 and total it lies within 0.5 of total / value, a span of 1 means total / value < 1.5, and a span of total means total / value >= total - 0.5 |
| ViewWindow.ZoomTarget | audio/controller.js:288-301 | the target is centred on the old midpoint: with lo = mid - span / 2, the bounds are (lo, lo + span) when that lies inside [0, total], (0, span) when lo < 0, and (total - span, total) when lo + span > total. They always lie within [0, total] and are exactly span apart |
| ViewWindow.ZoomWindowSpan | audio/controller.js:278-304 | ZoomWindow (ZoomTarget passed through the gate): with samples, the window lies inside the samples and shows exactly ZoomSpan samples, whatever the window was before |
| ViewWindow.ZoomWindowCentred | audio/controller.js:278-304 | with samples, ZoomWindow keeps the old midpoint: the window is (round(lo), round(lo) + span) for lo = mid - span / 2, and (0, span) or (total - span, total) when the centred window would cross the start or the end |
| ViewWindow.ZoomOutShowsAll | audio/controller.js:283-304 | any factor <= 1 shows (0, total) from any window |
| ViewWindow.ZoomScenario | audio/controller.js:278-304 | from (0, 1000), zoom 10 gives (450, 550) |
| ViewWindow.CanvasXtoT | audio/controller.js:60-63 | the sample position under pixel x is offsetMin + (offsetMax - offsetMin) * x / clientWidth |
| ViewWindow.CanvasXtoTLinear | audio/controller.js:60-63 | pixel 0 maps to offsetMin and pixel clientWidth to offsetMax. A pixel distance maps to a proportional sample distance, also outside the canvas |
| ViewWindow.PanDeltaProportional | audio/controller.js:85-87 | PanDelta, the drag shift `t1 - t2 \| 0`, is the truncated proportional sample distance between the press and release pixels |
| ViewWindow.PanInsideKeepsSpan | audio/controller.js:87-89 | a pan whose shifted window stays inside the samples moves the window rigidly |
| ViewWindow.WheelFactor | audio/controller.js:116 | the zoom factor is below 1 for wheel up, above 1 for wheel down, and 1 without direction |
| ViewWindow.WheelTarget | audio/controller.js:116-121 | the wheel keeps the midpoint and scales the length by the factor |
| ViewWindow.WheelNeutral | audio/controller.js:114-122 | a wheel event without direction leaves a window inside the samples unchanged |
| ViewWindow.WheelInNarrows | audio/controller.js:114-122 | wheel up never widens a window inside the samples, and keeps it inside |
| ViewWindow.WheelKeepsOvershoot | audio/controller.js:114-122 | the window (total, total + 1) that the gate can leave past the samples is kept as it is by the wheel in every direction |
| ViewWindow.LastBoundaryPosition | audio/controller.js:169-180 | boundary ns of the stripes is exactly t_max |
| ViewWindow.StripesPartition | audio/controller.js:176-180 | the first stripe starts at `t_min \| 0`, the last ends at `t_max \| 0`, and each stripe ends where the next begins |
| ViewWindow.BoundaryPosition | audio/controller.js:162-180 | for t_min <= t_max, the boundaries lie in [t_min, t_max] and move forward with k |
| ViewWindow.StripesOrdered | audio/controller.js:162-180 | for a non-reversed range within 32 bits, the stripe boundaries never decrease |
| Audio.NormalizeShown | audio/controller.js:239-243 | every window the gate produces starts in [0, total], shows at least one sample, and ends past the samples only as (total, total + 1) |
| Audio.FrameStripes | audio/controller.js:176-186 | a frame is drawn in exactly ns stripes |
| Audio.DrawStripes | audio/controller.js:174-186 | the stripe loop yields FrameStripes, whose stripe k is StripeAt: it covers boundaries k and k + 1 and starts at row `h / ns * k \| 0`. The stripes tile [t_min, t_max] end to end |
| Audio.AudioController.constructor | audio/controller.js:35-53 | a new controller has no samples, the window (0, 0), no pending frames and no drag |
| Audio.AudioController.SetOffsetRange | audio/controller.js:226-248 | without samples or with a non-finite bound, nothing changes. Otherwise the window becomes Normalize of the bounds and a frame is scheduled exactly when `draw` is set. The counter always equals the queue length |
| Audio.AudioController.ApplyZoom | audio/controller.js:278-304 | without samples or with a non-finite factor, nothing changes. Otherwise the window becomes ZoomWindow and one frame is scheduled. With samples, the window lies inside them, spans ZoomSpan, and is centred on the old midpoint as in ZoomWindowCentred |
| Audio.AudioController.DrawFrame | audio/controller.js:160-174 | drawFrame counts one more pending frame and queues FrameOf the current window: t_min = offsetMin - fft_size / 2 and t_max = offsetMax - fft_size / 2 |
| Audio.AudioController.RunFrame | audio/controller.js:174-187 | the oldest scheduled callback uncounts its frame, leaves the rest queued and returns that frame's stripes |
| Audio.AudioController.MouseDown | audio/controller.js:78-80 | mousedown records the press position and changes nothing else |
| Audio.AudioController.MouseOut | audio/controller.js:74-76 | mouseout forgets the press position and changes nothing else |
| Audio.AudioController.MouseUp | audio/controller.js:82-90 | without a press, with a pending frame, or with a zero shift, nothing changes. Otherwise the window is the gate applied to the window shifted by PanDelta, and a frame is scheduled |
| Audio.AudioController.Click | audio/controller.js:102-112 | ctrl+shift shows all samples and throws exactly when there are none. ctrl moves the start, and shift the end, to the clicked sample `t \| 0`. A plain click changes nothing |
| Audio.AudioController.Wheel | audio/controller.js:114-122 | with a pending frame or without samples, nothing changes. Otherwise the window becomes the gate applied to WheelTarget, and a frame is scheduled |
| Audio.AudioController.InstallSamples | audio/controller.js:208-223 | the samples are cut to 2048 * 2048 * 4, the window shows all of them without drawing, and then exactly one frame is scheduled |
| Resample.Passes | audio/controller.js:419 | `i < a.length / 2` runs ceil(L / 2) times |
| Resample.Downsampled | audio/controller.js:418-425 | downsample2x keeps the array length; slot i is DownsampledAt, the mean of slots 2i and 2i + 1 for i < ceil(L / 2), and the old value otherwise |
| Resample.DownsampledEven | audio/controller.js:418-425 | for even L, slot i < L/2 becomes the mean of slots 2i and 2i+1, and the upper half is untouched |
| Resample.DownsampledOddLast | audio/controller.js:418-425 | for odd L, the last averaged slot reads past the end and becomes NaN |
| Resample.Downsample2x | audio/controller.js:418-425 | in place, the array becomes Downsampled of its old contents. No read sees a slot already overwritten |
| Resample.Iterations | audio/controller.js:410 | `for (i = 0; i < n; i++)` runs ceil(n) times for positive n |
| Resample.HalveAsWritten | audio/controller.js:411-412 | one pass as written keeps L - floor(L/2) values |
| Resample.PassAsWritten | audio/controller.js:411-412 | the loop body downsamples the array in place and returns a fresh copy of its slice from floor(L/2) |
| Resample.SliceFrom | audio/controller.js:412 | `a.slice(from)` is a fresh copy of the suffix |
| Resample.FixAudioBufferRate | audio/controller.js:401-416 | below one octave the input is returned untouched. Otherwise the input is downsampled once in place, and the result is RateFixedAsWritten: Iterations(n) as-written passes |
| Resample.RateFixedAsWrittenStep | audio/controller.js:410-413 | one more loop iteration applies one more as-written pass |
| Resample.HalveAsWrittenKeepsUpperHalf | audio/controller.js:410-413 | as written, a pass over an even-length array returns its untouched upper half |
| Resample.HalveAsWrittenOddStartsNaN | audio/controller.js:410-413 | as written, a pass over an odd-length array starts with NaN |
| Resample.HalveAsWrittenCounterexample | audio/controller.js:410-413 | for [x, x, y, y] the code returns [y, y], where the pairwise means are [x, y] |
| Resample.Halve | audio/controller.js:411-412 | an intended pass keeps floor(L/2) values |
| Resample.HalveMeans | audio/controller.js:411-412 | every value of an intended pass is the mean of a pair of input values |
| Resample.RateFixedLength | audio/controller.js:401-416 | k intended passes leave floor(L / 2^k) values |
| Resample.RateFixedStep | audio/controller.js:410-413 | one more intended iteration applies one more intended pass |
| Resample.FixAudioBufferRateIntended | audio/controller.js:401-416 | the corrected loop returns the input below one octave, and otherwise Iterations(n) passes that keep the averaged prefix |
| Resample.Pass | audio/controller.js:411-412 | the corrected loop body downsamples in place and returns a fresh copy of the averaged prefix |
| Resample.SlicePrefix | audio/controller.js:412 | `a.slice(0, to)` is a fresh copy of the prefix |
| FrameBuffer.CheckOptions | webgl/framebuffer.js:15-32 | a truthy non-Float32Array source throws first. Then size together with width or height throws. A size sets both sides. The buffer is too large exactly when count > 2^FBO_MAX_SIZE or max(width, height) > MAX_TEXTURE_SIZE |
| FrameBuffer.CheckAtLimits | webgl/framebuffer.js:131-139 | a buffer that meets both limits exactly is accepted |
| FrameBuffer.Staged | webgl/framebuffer.js:98-102 | the staging array has exactly capacity elements |
| FrameBuffer.StagedExact | webgl/framebuffer.js:98-102 | an exact-length source is uploaded as it is |
| FrameBuffer.StagedContents | webgl/framebuffer.js:98-101 | staging copies the first min(len, cap) elements and zero-fills the rest |
| FrameBuffer.StagedIdempotent | webgl/framebuffer.js:98-102 | staging an already staged array changes nothing |
| FrameBuffer.Rgba | webgl/framebuffer.js:61-62 | the RGBA image that readPixels sees has four slots per texel |
| FrameBuffer.ReadPixelsInto | webgl/framebuffer.js:61-62 | readPixels into the staging array keeps its length |
| FrameBuffer.ReadAll | webgl/framebuffer.js:61-62 | reading the whole texture from (0, 0) fills the staging array with the image in order |
| FrameBuffer.Deinterleave | webgl/framebuffer.js:65-67 | the output holds ch values for each of the w * h pixels |
| FrameBuffer.ComponentAt | webgl/framebuffer.js:65-67 | output slot i * ch + j holds staging slot i * 4 + j |
| FrameBuffer.DeinterleaveRgba | webgl/framebuffer.js:61-67 | de-interleaving the RGBA image of stored data gives back that data |
| FrameBuffer.UploadDownload | webgl/framebuffer.js:46-124 | uploading exactly capacity values and then downloading the whole texture returns them, whatever the staging array held |
| FrameBuffer.GpuFrameBuffer.constructor | webgl/framebuffer.js:26-34 | a new buffer has the settled dimensions and a zero texture, and has no staging array yet |
| FrameBuffer.GpuFrameBuffer.Create | webgl/framebuffer.js:5-35 | the constructor throws what CheckOptions reports, and otherwise yields a valid, cleared buffer of the settled dimensions |
| FrameBuffer.GpuFrameBuffer.Destroy | webgl/framebuffer.js:37-42 | the texture is deleted exactly when one exists |
| FrameBuffer.GpuFrameBuffer.Render | webgl/transform.js:48 | a draw (`gp.blit(output)`) into the buffer replaces its texture with the shader's output, one value per stored component, and keeps it valid; the call log and staging array stay as they were |
| FrameBuffer.GpuFrameBuffer.Upload | webgl/framebuffer.js:93-124 | the texture becomes the staged source, and the caller's array is not modified |
| FrameBuffer.GpuFrameBuffer.Attach | webgl/framebuffer.js:83-91 | attach returns its id, binds the texture to that unit, and re-uploads the bound source exactly when there is one |
| FrameBuffer.GpuFrameBuffer.Download | webgl/framebuffer.js:46-70 | the call fails exactly when the output length is not w * h * channels, and a refused call changes neither the staging array nor the output. Otherwise the staging array (allocated on the first call and reused afterwards) receives the rectangle, and the same or a fresh output holds its first channels per pixel |
| FrameBuffer.CopyChannels | webgl/framebuffer.js:65-67 | the nested loop writes every output slot with Deinterleave of the staging array |
| FrameBuffer.AttachThenDownload | webgl/framebuffer.js:83-91 | attaching a buffer bound to a capacity-length array, then downloading all of it, returns that array's contents |
| Transform.BindOne | webgl/transform.js:58-93 | a missing argument fails before the size check, and the size check before the type check. BOOL and INT bind uniform1i, UNSIGNED_INT uniform1ui and FLOAT uniform1f, each with the argument as given. A sampler bound to a frame buffer (AttachesBuffer) binds that buffer to the current unit and advances it; only samplers advance it. A falsy sampler fails (Truthy is JavaScript truthiness), a truthy non-buffer one cannot be attached. A vector needs an array of at least 2, 3 or 4 values and binds exactly that many. Any other tag fails with UnknownType |
| Transform.PlanInOrder | webgl/transform.js:57-97 | in Plan, the loop as a value, the first uniform's error stops binding and otherwise its binding precedes the rest's; binding i is for uniform i. Everything is bound exactly when there is no error. The error is the one the first unbound uniform raises |
| Transform.SamplerUnits | webgl/transform.js:55-71 | sampler uniforms receive units 0, 1, 2, ... in declaration order |
| Transform.UndeclaredIgnored | webgl/transform.js:57-62 | arguments for names no uniform declares change nothing |
| Transform.ScalarPresentBinds | webgl/transform.js:61-81 | 0, false and null count as present: a scalar uniform binds the argument as given |
| Transform.VecTakesPrefix | webgl/transform.js:82-90 | a vector uniform binds the first 2, 3 or 4 values of its array |
| Transform.BindUniform | webgl/transform.js:58-95 | one loop pass binds or fails as BindOne says. For a buffer sampler, the buffer is bound to unit nSamplers, its texture becomes its bound source staged to capacity (or stays as it was without a source), and its log gains the bind and the upload. Every other argument buffer is unchanged |
| Transform.GpuTransformProgram.Init | webgl/transform.js:18-22 | a program is created with its output and uniforms and an empty call log |
| Transform.GpuTransformProgram.Create | webgl/transform.js:10-23 | width and height default to size. An output buffer is created exactly when width * height != 0, with those sides and channels, and its errors propagate |
| Transform.GpuTransformProgram.Destroy | webgl/transform.js:25-28 | the output, if any, is destroyed before the program |
| Transform.GpuTransformProgram.BindArgs | webgl/transform.js:52-97 | the loop binds what Plan binds, in order, and fails with Plan's error. Argument buffers that no sampler uniform attaches (SamplerBuffers) are unchanged |
| Transform.GpuTransformProgram.Exec | webgl/transform.js:42-50 | DUMMY does nothing and leaves every argument buffer unchanged. Otherwise the order is use program, bind, then draw into the target, and the draw is skipped when binding throws. After a draw into a buffer, that buffer holds what the shader wrote and stays valid; a target left undrawn by a throwing bind is unchanged. Other buffers that no sampler attaches are unchanged |
| Transform.BoundSnoc | webgl/transform.js:57-95 | binding one more uniform appends exactly its GL call to the log of the calls made so far, which is how the loop's log grows pass by pass |

## Left out

- Audio.AudioController.InstallSamples: models the part of `start` after decoding and resampling. The Web Audio decode and `fixAudioBufferRate` are modelled separately and not chained, because the source sample rate comes from the audio context (`this.audioCtx.sampleRate`, the decoder's rate), which is I/O; the target rate `SAMPLE_RATE` enters only through `octaves`.
- The configuration constants `NUM_STRIPES` and `FBO_MAX_SIZE` are fields or parameters. `SAMPLE_RATE` enters only through the `octaves` parameter of FixAudioBufferRate. vargs.js is not part of this model.
- `USE_MOUSE` is taken to be on: the mouse methods of Audio.AudioController model the handlers that `initMouse` installs, and the early return when the flag is off (audio/controller.js:71) is not modelled.
- Web Audio and async code are I/O: `start`'s decoding, the global `stop()` it calls, `playAudio`, `stopAudio`, `createAudioContext`, and `audioStream`/`currentTime`/`audioDuration`.
- UI and text are not modelled: `updateStats`, `updateZoomDisplay`, `setupZoomControl`, `canvasYtoF`, `onmousemove`, `switchCoords` and `switchRenderer`.
- GPU rendering stays abstract:
  - `initGpu` and the `drawImage` compositing are not modelled. A stripe's destination rows are part of the Stripe value instead.
  - Each stripe's `node.exec` call is not modelled. RunFrame returns the stripe uniforms instead.
- Real WebGL is not modelled: `prepareFBO`, `clear`, texture formats, `GpuProgram` and the shaders. The texture is the sequence of its components. The WebGL 2 behaviour of readPixels (RGBA defaults 0, 0, 1; pixels outside the texture left untouched; too small a buffer not written) is part of the definition of FrameBuffer.Rgba and FrameBuffer.ReadPixelsInto; their contracts state only the lengths, and ReadAll the full-texture read.
- Float32 rounding is not modelled. Samples are stored and averaged as exact reals.
- Double rounding is not modelled either: the window, zoom, pan, wheel and stripe arithmetic uses exact reals. In doubles a stripe boundary can truncate one below the exact value. For example t_min = 0, t_max = 1 and ns = 49 give `0 + (1/49) * 49`, just below 1, so the last boundary `| 0` is 0. ViewWindow.LastBoundaryPosition states the exact-real value t_max.
- Audio.AudioController: clientWidth is a positive constant of the controller, where the source reads the live `canvas.clientWidth`; resizing the canvas is not modelled.
- Audio.AudioController.InstallSamples: does not model the creation of the waveform GpuFrameBuffer and the upload of the samples into it (audio/controller.js:215-217); the model keeps no waveform buffer.
- The WebIDL conversions that `uniform1i`/`uniform1f`/`uniform*f` apply to their arguments are not modelled. The binding records the argument as given.
- The argument values are limited to null, booleans, numbers, numeric arrays and frame buffers. Strings and other objects are left out.
- An explicit `undefined` in the argument map is the same as a missing key.
- An absent `size` is written as 0, which the constructor treats the same (0 is falsy).
- FrameBuffer.CheckOptions: an absent width or height is also written as 0, but checkBufferSize does not treat it as 0. With a side absent and no size, the source's count and `Math.max(width, height)` are NaN, so the size check passes and the side stays undefined. The model instead checks the 0 side, so it refuses for example `{width: 5000}` as TooLarge when 5000 exceeds MAX_TEXTURE_SIZE. GpuTransformProgram always passes both sides, so this case arises only when a GpuFrameBuffer is constructed directly.
- FrameBuffer.GpuFrameBuffer.Create: inherits the CheckOptions case above for an absent width or height.
- FrameBuffer.GpuFrameBuffer.Create: requires 1 to 4 channels, the formats the context provides textures for. The context's texture-format lookup is not part of this model.
- Negative download rectangles are not modelled: the rectangle sizes are naturals.
- FrameBuffer.GpuFrameBuffer.Download: requires that a given output array is not the buffer's own staging array.
- FrameBuffer.GpuFrameBuffer.Upload: assumes the texture bound at the time is this buffer's own, as it is at every call site (after attach, or right after construction).
- Transform.GpuTransformProgram.BindArgs: states that buffers no sampler uniform attaches are unchanged. It does not state the final texture and log of each attached buffer, because several samplers may attach the same buffer. It does not state that buffers of samplers after a failing uniform stay unchanged either. Transform.BindUniform carries the per-pass contract.
- Transform.GpuTransformProgram.Exec: states the same about attached buffers as BindArgs. What the fragment shader writes is the parameter `shaded`, since the shaders are not modelled; the draw is stated to put exactly those values into the target buffer.
- Audio.AudioController.MouseDown: keeps only the x coordinate of the press. The closure variable `initial_pos` is a field of the controller.
- `requestAnimationFrame` timing and concurrency are not modelled. Scheduled frames are a FIFO queue, and running one is the explicit step RunFrame.
- `checkError` calls and GL errors are not modelled. GL calls are assumed to succeed.

## Findings

| source | as written | input that shows it | evidently intended | confidence | as-written member | corrected member |
|---|---|---|---|---|---|---|
| audio/controller.js:410-413 | after `downsample2x(a)` each pass keeps `a.slice(a.length / 2 \| 0)`, the upper half. downsample2x has not touched that half (for even lengths), so no averaged value survives, and an odd length starts with NaN | one pass over [1, 1, 3, 3] returns [3, 3] | keep the averaged prefix `a.slice(0, a.length / 2 \| 0)`, giving [1, 3]: pairwise means, floor(L / 2^k) samples after k passes | not executed | Resample.HalveAsWrittenCounterexample | Resample.FixAudioBufferRateIntended |
