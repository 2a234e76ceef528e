# Edge-detection viewer: frame handoff, renderer lifecycle and analysis step

The Android app shows camera frames after an optional native edge-detection
pass. CameraX delivers frames to an `ImageAnalyzer` on a single background
thread. For each frame the analyzer:

- copies the luma (Y) plane into a reusable scratch buffer;
- runs either the native `processFrame` (edge detection) or `rotateRawFrame`, as the display mode selects;
- publishes a non-null result to the `GLRenderer` and requests a render;
- counts the frame in a rolling one-second FPS counter.

The renderer keeps one pending slot: the latest frame, its size and a dirty flag. On the GL thread, `onDrawFrame` drains that slot into one luminance texture and draws a full-screen quad as a four-vertex triangle strip.

The model has these parts:

- `Gl` (gl.dfy): the OpenGL ES context as a value. It holds the live shaders, programs and textures, texture storage and parameters, bindings, the enabled attribute arrays and the viewport. It also logs every `glTexImage2D` and `glDrawArrays`. Each GL call the renderer makes is a function on that value.
- `RenderModel` (render_model.dfy): the renderer's fields and GL context as a record. It has one function per renderer operation, each with a contract saying what the operation changes and what it leaves alone. It also holds lemmas on the handoff (latest wins, no double delivery) and the lifecycle (validity kept, cleanup idempotent, cleanup after setup).
- `RenderTrace` (render_trace.dfy): any interleaving of producer publishes and consumer draws. It proves that the uploads are exactly the latest-wins deliveries, that the last frame is never lost, that no frame is delivered twice, that a strict 1:1 cadence delivers every frame in order, and what each draw looks like.
- `Renderer` (renderer.dfy): `class GLRenderer` with the Kotlin fields, updated in place. Each method is proved to move `State()` exactly as the matching `RenderModel` function does.
- `FrameRate` (frame_rate.dfy): `updateFPS` with the clock as a parameter. It covers Kotlin's 32-bit `Int` wrap-around and its truncating `Long` division, with lemmas on the posted values: reports are spaced at least 1000 ms apart, and a window's report is the floor of frames × 1000 / elapsed.
- `Activity` (activity.dfy): `class MainActivity` (toggle, FPS fields, render requests) and `class ImageAnalyzer` (scratch buffer and `processImage`). It also has a whole-app theorem: whatever the interleaving of analyses, toggles and renders, the texture only ever receives successful transform outputs, each at the size of the frame it came from.

The GL driver's answers are one `Replies` value passed to `OnSurfaceCreated`. They are the shader and program names, the compile and link status, the attribute and uniform locations, and the texture name. The two native transforms are opaque total functions that may return null (`None`), gathered in a `Native` value. The clock reading is a parameter of `UpdateFps` and `ProcessImage`.

Every drained frame re-specifies the texture storage with a full `glTexImage2D` (GLRenderer.kt:194-211), even when its size is unchanged, and so does the model.

## Model

| member | source | states |
|---|---|---|
| RenderModel.UpdateTexture | app/src/main/java/com/edgedetection/GLRenderer.kt:213-218 | the next draw would upload exactly the given frame at the given size; the GL context and the handles are untouched |
| RenderModel.UpdateTextureData | app/src/main/java/com/edgedetection/GLRenderer.kt:194-211 | the texture bound is the renderer's; its storage becomes the given frame; one upload is logged; no object, draw or attribute changes |
| RenderModel.DrawFrame | app/src/main/java/com/edgedetection/GLRenderer.kt:145-192 | the dirty flag ends false; the pending frame is uploaded once if the flag was set and the slot non-null, and otherwise the texture is untouched; exactly one 4-vertex triangle-strip draw with the renderer's program, its texture and both attribute arrays enabled; both arrays disabled afterwards; one clear; handles and GL objects unchanged |
| RenderModel.LoadShader | app/src/main/java/com/edgedetection/GLRenderer.kt:220-234 | the result is non-zero iff the driver gave a name and compiled it; on failure the shader is deleted and 0 returned; on success the shader is live and its name returned |
| RenderModel.SurfaceCreated | app/src/main/java/com/edgedetection/GLRenderer.kt:93-139 | the pending slot and per-frame state are untouched. On a compile or link failure, handles, textures and parameters are unchanged and no program is added. On a compile failure, a shader that did compile stays live and the programs are unchanged. On a link failure, both shaders stay live and the programs are the earlier ones minus the created program, which is deleted even when the driver reused a live name. On success, the handles come from the driver, the program and texture are live, both shaders are deleted, one texture is generated and its four parameters are set |
| RenderModel.CreateTexture | app/src/main/java/com/edgedetection/GLRenderer.kt:129-138 | the texture is live with linear min/mag filtering and clamp-to-edge wrapping on both axes, after one glGenTextures and four glTexParameteri calls; shaders, programs and per-frame state are unchanged |
| RenderModel.SurfaceChanged | app/src/main/java/com/edgedetection/GLRenderer.kt:141-143 | the viewport becomes the surface size; the pending slot, handles, GL objects, parameters, bindings, counters and frame logs are unchanged |
| RenderModel.Cleanup | app/src/main/java/com/edgedetection/GLRenderer.kt:236-245 | both handles end 0; a non-zero texture is deleted with its storage; a non-zero program is deleted; with both handles 0 nothing changes; the pending slot, the other handles, shaders, frame logs, viewport, current program and the texture-generation and parameter counters are kept |
| RenderModel.LatestWins | app/src/main/java/com/edgedetection/GLRenderer.kt:213-218 | two publishes before a draw upload only the second frame, into the renderer's texture |
| RenderModel.NoDoubleDelivery | app/src/main/java/com/edgedetection/GLRenderer.kt:149-154 | a second draw with no publish in between uploads nothing, leaves the texture as it was, and still draws |
| RenderModel.OperationsKeepValid | app/src/main/java/com/edgedetection/GLRenderer.kt:145-192 | every renderer operation keeps the invariant: a set dirty flag has a frame behind it, and no attribute array stays enabled |
| RenderModel.CleanupIdempotent | app/src/main/java/com/edgedetection/GLRenderer.kt:236-245 | calling cleanup twice has the effect of calling it once |
| RenderModel.SetupThenCleanup | app/src/main/java/com/edgedetection/GLRenderer.kt:236-245 | after a successful setup, cleanup releases exactly the program and texture setup created: the programs and textures are the earlier ones minus those two, the shaders are the earlier ones minus the two deleted after linking, and the pending frame is kept |
| RenderTrace.RunUploads | app/src/main/java/com/edgedetection/GLRenderer.kt:149-154 | over any interleaving of publishes and draws, the uploads are the old ones, then the previously pending frame if the run starts with a draw, then exactly the publishes immediately followed by a draw, in order |
| RenderTrace.LastPublishPending | app/src/main/java/com/edgedetection/GLRenderer.kt:213-218 | when a run ends with a publish, that frame is still pending at the end, so the next draw uploads it |
| RenderTrace.HandedBounds | app/src/main/java/com/edgedetection/GLRenderer.kt:149-154 | the deliveries are a subsequence of the publishes: each delivered frame uses up its own publish, in publish order, so no publish is delivered twice; deliveries never outnumber publishes or draws |
| RenderTrace.HandedArePublished | app/src/main/java/com/edgedetection/GLRenderer.kt:149-154 | only published frames are ever delivered |
| RenderTrace.AlternateHandsAll | app/src/main/java/com/edgedetection/GLRenderer.kt:149-154 | under a strict publish/draw alternation, the deliveries are exactly the published frames |
| RenderTrace.AlternationDeliversAll | app/src/main/java/com/edgedetection/GLRenderer.kt:149-154 | under a strict 1:1 cadence, every published frame is uploaded exactly once, in order |
| RenderTrace.RunDraws | app/src/main/java/com/edgedetection/GLRenderer.kt:157-191 | one draw per draw event, earlier draws kept, each new one a 4-vertex triangle strip with the renderer's program and texture and both attribute arrays; handles, GL objects and the invariant are preserved |
| Renderer.GLRenderer.constructor | app/src/main/java/com/edgedetection/GLRenderer.kt:14-31 | all handles 0, no pending frame, dirty flag clear, nothing created in GL |
| Renderer.GLRenderer.UpdateTexture | app/src/main/java/com/edgedetection/GLRenderer.kt:213-218 | the slot holds the given frame and size, and the dirty flag is set; nothing else changes |
| Renderer.GLRenderer.OnDrawFrame | app/src/main/java/com/edgedetection/GLRenderer.kt:145-192 | follows RenderModel.DrawFrame: flag cleared, at most the pending frame uploaded, one draw |
| Renderer.GLRenderer.UpdateTextureData | app/src/main/java/com/edgedetection/GLRenderer.kt:194-211 | the renderer's texture storage becomes the frame; follows RenderModel.UpdateTextureData |
| Renderer.GLRenderer.LoadShader | app/src/main/java/com/edgedetection/GLRenderer.kt:220-234 | returns a non-zero shader iff the driver named and compiled it; follows RenderModel.LoadShader |
| Renderer.GLRenderer.OnSurfaceCreated | app/src/main/java/com/edgedetection/GLRenderer.kt:93-139 | follows RenderModel.SurfaceCreated, whose contract gives each of the three outcomes |
| Renderer.GLRenderer.CreateTexture | app/src/main/java/com/edgedetection/GLRenderer.kt:129-138 | the texture handle becomes the generated name and the context moves as RenderModel.CreateTexture says: live, linear filtering, clamp-to-edge wrapping |
| Renderer.GLRenderer.OnSurfaceChanged | app/src/main/java/com/edgedetection/GLRenderer.kt:141-143 | follows RenderModel.SurfaceChanged |
| Renderer.GLRenderer.Cleanup | app/src/main/java/com/edgedetection/GLRenderer.kt:236-245 | both handles end 0; follows RenderModel.Cleanup |
| FrameRate.Wrap32 | app/src/main/java/com/edgedetection/MainActivity.kt:200 | Kotlin `Int` arithmetic: the result is a 32-bit value congruent to the exact one modulo 2^32, and equal to it when that fits |
| FrameRate.TruncDiv | app/src/main/java/com/edgedetection/MainActivity.kt:205 | `Long` division by a positive divisor truncates toward zero: floor for non-negative dividends, and the quotient bounds on both signs |
| FrameRate.Fps | app/src/main/java/com/edgedetection/MainActivity.kt:205 | the posted value is a 32-bit `Int`; without wrap-around it is the floor of frames × 1000 / elapsed and at most the frame count |
| FrameRate.UpdateFps | app/src/main/java/com/edgedetection/MainActivity.kt:199-212 | a value is posted iff at least 1000 ms passed since the window start. If not, only the count grows by one and the start is kept. If so, the posted value is the rate of the counted frames including this one, the count restarts at 0 and the window starts now |
| FrameRate.ReportsSpaced | app/src/main/java/com/edgedetection/MainActivity.kt:201-210 | over any sequence of clock readings, each posted value comes at least 1000 ms after the previous one or the window start |
| FrameRate.QuietWindow | app/src/main/java/com/edgedetection/MainActivity.kt:202-204 | calls inside the window post nothing, keep the start, and add one frame each |
| FrameRate.WindowReport | app/src/main/java/com/edgedetection/MainActivity.kt:199-212 | a window closed by its last call posts exactly one value, the floor of frames × 1000 / elapsed, and restarts the counter at that call |
| FrameRate.ThirtyFramesInOneSecond | app/src/main/java/com/edgedetection/MainActivity.kt:205 | 30 frames over exactly one second post 30 |
| FrameRate.FifteenFramesInTwoSeconds | app/src/main/java/com/edgedetection/MainActivity.kt:205 | 15 frames over two seconds post 7, the floor of 7.5 |
| Activity.MainActivity.constructor | app/src/main/java/com/edgedetection/MainActivity.kt:28-34 | processed display on, count 0, window starting at creation time, a fresh renderer in its initial state |
| Activity.MainActivity.ToggleShowProcessed | app/src/main/java/com/edgedetection/MainActivity.kt:110-115 | the display mode flips and nothing else changes |
| Activity.MainActivity.UpdateFps | app/src/main/java/com/edgedetection/MainActivity.kt:199-212 | the counter fields and posted values move exactly as FrameRate.UpdateFps says |
| Activity.ImageAnalyzer.constructor | app/src/main/java/com/edgedetection/MainActivity.kt:153-154 | no scratch buffer yet |
| Activity.ImageAnalyzer.ProcessImage | app/src/main/java/com/edgedetection/MainActivity.kt:166-196 | the scratch buffer holds the luma plane. The same buffer is reused when its size matches, and otherwise a fresh one is stored. `processFrame` runs iff the display mode is processed, and `rotateRawFrame` otherwise. A non-null result is published with the frame's size and one render is requested. A null result leaves the renderer untouched and requests nothing. The FPS counter advances once either way, and the display mode is unchanged |
| Activity.PublishedAreProduced | app/src/main/java/com/edgedetection/MainActivity.kt:182-193 | every frame published during a run of callbacks is the non-null output of the transform selected by the display mode in effect for one analysed frame, at that frame's size |
| Activity.OnlyTransformOutputsUploaded | app/src/main/java/com/edgedetection/MainActivity.kt:188-193 | starting with nothing pending, every texture upload over any interleaving of analyses, toggles and renders is such a transform output; null results and stale data never reach the texture |

## Left out

- Float data and calls that carry no state the model tracks: `glClearColor`, the vertex and texture-coordinate `FloatBuffer`s and `glVertexAttribPointer`, `glActiveTexture` and `glUniform1i`, the shader source text, and `glAttachShader`/`glLinkProgram` (only the link status they produce is modelled).
- The GL driver itself: the names, statuses and locations it returns are inputs (`Replies`), and a status query on name 0 is taken to report failure.
- Concurrency and `@Volatile`: each renderer call is treated as atomic, and a run is a sequence of such calls (`RenderTrace`, `Activity.Events`). Interleavings inside one call, such as a publish between `onDrawFrame`'s flag test and its clear, are not modelled.
- `GLSurfaceView` scheduling: `requestRender` is a ghost counter. Which draws the surface actually performs, and how it coalesces requests, is left open; every order of renders is covered by the trace lemmas.
- The native transforms (`processFrame`, `rotateRawFrame`) and `initializeOpenCV`: they run on native code that is not part of this model, so they are opaque functions that may return null.
- The `ThreadLocal` scratch buffer: it is a single field, because the analyzer runs on a single-thread executor.
- Activity.ImageAnalyzer.ProcessImage: passes the frame's pre-rotation width and height to the renderer, as MainActivity.kt:189 does. For a rotation of 90 or 270 degrees, both native transforms return a height × width image (app/src/main/cpp/native-lib.cpp:51-57 and 107-112), which is then uploaded as width × height. The transforms are opaque here, so the model does not state this mismatch; it is a likely defect of the source rather than a modelled property.
- Renderer.GLRenderer.OnSurfaceCreated: its `ensures` states the new state through RenderModel.SurfaceCreated rather than repeating each outcome inline. The outcomes themselves are stated on RenderModel.SurfaceCreated.
- Shader objects leak when only one of the two shaders compiles, and both leak on a link failure. This is modelled as written, and RenderModel.SurfaceCreated states both cases.
- Camera setup, permissions, Toasts, `runOnUiThread`, the label text and the activity lifecycle hooks are platform UI and I/O. Exceptions caught by `analyze`, and `image.close()`, are left out too. The FPS label is modelled as the sequence of posted values.
- The web viewer is browser UI with mock statistics, and is not part of this model.
- GL thread affinity: the model treats every GL call as reaching one context that is always current. In the app, `renderer.cleanup()` runs from `onDestroy` on the UI thread (MainActivity.kt:262), where no EGL context is current, so its `glDeleteTextures` and `glDeleteProgram` calls (GLRenderer.kt:238, 242) need not release anything. RenderModel.Cleanup and RenderModel.SetupThenCleanup describe the release only as it would happen on the GL thread.
- FrameRate.UpdateFps: `currentTime - lastFpsTime` is a `Long` subtraction (MainActivity.kt:202) and is modelled as exact. A 64-bit wrap-around would need clock readings about 2^63 ms apart, which a millisecond clock does not reach.
