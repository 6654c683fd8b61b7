# raylib-openvr, modelled in Dafny

raylib-openvr connects raylib to the OpenVR runtime. It comes in two bindings that do the same job:

- `rlvr.cpp`, a C++ binding over OpenVR's C++ API, with its state in file-level statics;
- `rayvr.c`, a C binding over OpenVR's function tables, with its state in one global struct `VRCORE`.

Each binding does the following:

- starts the runtime and allocates one render texture per eye, at the size the HMD recommends;
- on every frame, takes the tracked-device poses and caches the HMD's pose and its inverse;
- brackets the drawing of each eye by saving rlgl's projection and loading that eye's projection and view matrices, then popping the saved projection and resetting the modelview to the identity;
- submits both eye textures to the compositor;
- shuts down and releases both textures.

`examples/generate.py` is a small generator. It turns an example C file whose first line is the marker `//genexample` into a Markdown page. Comment lines become prose and everything else goes into fenced C code blocks.

The model has these parts:

- **Values.** Matrix conversion (`Adapter`), the cached head pose (`PoseStore`), the rlgl state the eye bracket touches (`Raylib`, `EyeBracket`) and the generator (`Generate`) are datatypes and functions.
- **Objects.** The state each binding changes in place is a class: `Rlvr.Session` holds `rlvr.cpp`'s statics and `Rayvr.Core` holds `VRCORE`. Their methods follow the source statement by statement, and each method's contract states the new state.
- **Generator.** `Generate.Generate` is the generator's loop. It is proved to write exactly `Markdown`, and lemmas about `Markdown` state what the page contains.

What the model leaves outside:

- Calls into OpenVR and raylib are outside the model. The runtime's answers arrive as a `Runtime` value and the texture ids as `Allocation` values. The pose sample and the `Submit` error codes are parameters.
- The side effects on the outside world (log lines, submissions, texture unloads, runtime shutdown) are appended to an `events` trace, in the order they happen.
- Floats are 32-bit patterns (`CTypes.Float`) that are only copied.
- `MatrixInvert` and `MatrixMultiply` are symbolic terms (`Raylib.MatExpr`). The contracts therefore say which matrices are multiplied and inverted, and in which order. Two different terms may still denote the same matrix.
- raylib's `BeginTextureMode` and `EndTextureMode` are modelled by what they do to rlgl's state: each switches the target and then loads the orthographic projection for the drawing area (the texture, or the window) and an identity modelview. Because `BeginEyeDrawing` pushes the projection after `BeginTextureMode`, what it saves, and what `EndEyeDrawing` pops back, is the texture's orthographic projection, not the projection in force before the eye was begun.

Where the code does less than its comments and names suggest, the model follows the code:

- The cached head pose and its inverse start as zero matrices, not as the identity.
- Nothing stops a second `BeginEyeDrawing` before `EndEyeDrawing`: the projection stack just grows (`EyeBracket.NestedBeginGrowsStack`).
- `rlvr.cpp`'s view matrix is `Eye × inverse(HMD_POSE)`. `HMD_POSE_INV` is cached but never read.
- `rayvr.c`'s view matrix is `inverse(Eye) × matrixInvHmdTf`.
- `rlvr.cpp` submits with colour space Gamma and `rayvr.c` with Auto.
- `rayvr.c`'s shutdown leaves `VRCORE.compositor` set.
- `rlvr.cpp`'s struct `OpenVrCoreData`, with its `clipZFar = 40.0f`, is never instantiated. The clip planes it actually uses are `NEAR_Z = 0.1f` and `FAR_Z = 30.0f`.

## Model

| member | source | states |
|---|---|---|
| CTypes.ToInt32 | rlvr.cpp:114-117 | a `uint32_t` size passed where raylib takes `int` lands in the 32-bit signed range, is congruent to it modulo 2^32, and is unchanged when it fits |
| Adapter.OpenVr44ToRaylib44Matrix | rlvr.cpp:42-49 | entry (row, col) of the raylib matrix is entry [row][col] of the OpenVR 4x4 matrix, for all 16 entries |
| Adapter.OpenVr34ToRaylib44Matrix | rlvr.cpp:51-60 | the first three rows are copied entry by entry from the 3x4 matrix and the last row is 0, 0, 0, 1 |
| Adapter.Rows44 | rlvr.cpp:42-49 | reading a raylib matrix back as four OpenVR rows gives entry (row, col) at [row][col] |
| Adapter.AffineBlock | rlvr.cpp:51-60 | reading back the top three rows gives entry (row, col) at [row][col] |
| Adapter.Convert44RoundTrip | rlvr.cpp:42-49 | the 4x4 conversion is a bijection: converting there and back is the identity both ways |
| Adapter.Convert34RoundTrip | rlvr.cpp:51-60 | the 3x4 conversion loses nothing, always yields an affine matrix, and is undone by reading back exactly when the matrix is affine |
| Raylib.SubmitErrorLog | rlvr.cpp:177-180 | a `Submit` result is logged exactly when it is not `VRCompositorError_None`, as at most one line, an error carrying that code |
| PoseStore.Sample | rlvr.cpp:128-132 | after one update the cached inverse is the inverse of the cached pose when the sample was valid, or when the pair was already consistent |
| PoseStore.StaleRetained | rlvr.cpp:125-133 | any number of samples without a valid HMD pose leave the cached pair untouched |
| PoseStore.LastValidWins | rlvr.cpp:125-133 | after a sequence of samples the cached pair is the one built from the last valid sample |
| PoseStore.InverseMatchesPose | rlvr.cpp:128-132 | once any sample was valid, the cached inverse is the inverse of the cached pose |
| PoseStore.UntrackedHeadIsZero | rlvr.cpp:39 | until a valid sample arrives the pair is still the zero-initialised one: the pose is the zero matrix and the cached inverse is the zero matrix itself, not a term inverting the pose |
| EyeBracket.BracketBalanced | rlvr.cpp:139-172 | ending an eye right after beginning it restores the stack, returns to the screen, resets the modelview to the identity and turns depth testing off, and leaves the texture's orthographic projection, the one it saved, as the projection |
| EyeBracket.PassesBalanced | main.cpp:51-63 | any sequence of begin/end eye passes leaves the matrix stack as it was; after at least one pass the projection is the last texture's orthographic projection and the rest of the state is that of a single bracket |
| EyeBracket.NestedBeginGrowsStack | rlvr.cpp:139-150 | beginning an eye twice without ending pushes the two textures' orthographic projections, so the first eye's projection is lost, and draws into the second texture |
| Rlvr.Session.constructor | rlvr.cpp:29-39 | the statics start zeroed: no HMD, zero pose and inverse, empty render textures, zero poses |
| Rlvr.Session.GetPoseMatrix | rlvr.cpp:74-77 | returns `HMD_POSE`: the constructor's contract fixes it at the zero matrix, `PoseStore.UntrackedHeadIsZero` keeps it there until a valid sample, and `Rlvr.Session.UpdateOpenVr`'s contract makes it the converted 3x4 pose of each valid sample |
| Rlvr.Session.GetHmd | rlvr.cpp:79-83 | returns `HMD`: null before `InitOpenVr` (the constructor's contract) and after `ShutdownOpenVr` or a failed `InitOpenVr` (their contracts), the runtime's handle after a successful `InitOpenVr` |
| Rlvr.ProjectionMatrix | rlvr.cpp:62-66 | the runtime's 4x4 projection for the clip planes `NEAR_Z`/`FAR_Z`, converted entry by entry as `Adapter.OpenVr44ToRaylib44Matrix` states; `Rlvr.Session.InitOpenVr` caches it and `Rlvr.Session.BeginEyeDrawing` loads it afresh |
| Rlvr.EyeMatrix | rlvr.cpp:68-72 | the runtime's eye-to-head transform, converted as `Adapter.OpenVr34ToRaylib44Matrix` states; `Rlvr.Session.BeginEyeDrawing` multiplies it onto the inverted pose |
| Rlvr.Session.InitOpenVr | rlvr.cpp:100-123 | exits exactly when `VR_Init` fails, leaving the HMD null and logging the error; otherwise logs the tracking system, creates two textures of the recommended size and caches both projection and eye matrices |
| Rlvr.Session.UpdateOpenVr | rlvr.cpp:125-133 | stores the whole pose sample and updates the cached pair exactly as `PoseStore.Sample` does |
| Rlvr.Session.BeginEyeDrawing | rlvr.cpp:139-158 | rlgl ends up drawing into the eye's texture with that texture's orthographic projection pushed, the projection being the eye's and the modelview being `Eye × inverse(HMD_POSE)`, depth test on |
| Rlvr.Session.EndEyeDrawing | rlvr.cpp:160-172 | back to the screen, the saved projection popped over the window's projection, modelview identity, depth test off |
| Rlvr.Session.SubmitFrames | rlvr.cpp:174-188 | submits left then right texture ids in colour space Gamma, each followed by its error line when it failed |
| Rlvr.Session.EndOpenVrDrawing | rlvr.cpp:190-192 | the same trace as `SubmitFrames` |
| Rlvr.Session.ShutdownOpenVr | rlvr.cpp:194-203 | shuts the runtime down, nulls the HMD, unloads left then right texture and zeroes both |
| Rlvr.DrawFrame | main.cpp:45-63 | one loop pass stores the sample and updates the head pair, leaves the stack as it was and the right texture's orthographic projection loaded, submits the pre-frame left texture before the right one, and changes nothing else |
| Rayvr.InitChecks | rayvr.c:85-93 | the start-up log begins with the info line, has the error line exactly when no runtime is installed and the warning exactly when no HMD is present |
| Rayvr.Core.constructor | rayvr.c:45 | `VRCORE` starts zeroed, clip planes included |
| Rayvr.Core.GetPoseMatrix | rayvr.c:80-82 | returns `matrixHmdTf`: zero from the constructor's contract and `PoseStore.UntrackedHeadIsZero` until a valid sample, then the converted pose of the last valid sample by `Rayvr.Core.UpdateOpenVr`'s contract |
| Rayvr.Core.ProjectionMatrix | rayvr.c:68-72 | the runtime's 4x4 projection for the stored clip planes, converted as `Adapter.OpenVr44ToRaylib44Matrix` states; `Rayvr.Core.InitOpenVr`'s contract sets those planes to 0.1 and 30 |
| Rayvr.EyeMatrix | rayvr.c:74-78 | the runtime's eye-to-head transform, converted as `Adapter.OpenVr34ToRaylib44Matrix` states; `Rayvr.Core.BeginEyeDrawing` inverts it |
| Rayvr.Core.InitOpenVr | rayvr.c:84-125 | the process survives exactly when the runtime, the system table and the compositor table all succeed; each fatal stage is logged and stops what follows, and on success the textures, clip planes 0.1/30 and tables are set |
| Rayvr.Core.UpdateOpenVr | rayvr.c:127-135 | stores the whole pose sample and updates `matrixHmdTf`/`matrixInvHmdTf` exactly as `PoseStore.Sample` does |
| Rayvr.Core.BeginEyeDrawing | rayvr.c:141-159 | rlgl draws into the eye's texture with that texture's orthographic projection pushed, the projection built from the stored clip planes and the modelview `inverse(Eye) × matrixInvHmdTf`, depth test on |
| Rayvr.Core.EndEyeDrawing | rayvr.c:161-173 | back to the screen, the saved projection popped over the window's projection, modelview identity, depth test off |
| Rayvr.Core.SubmitFrames | rayvr.c:175-191 | submits left then right texture ids in colour space Auto, each followed by its error line when it failed |
| Rayvr.Core.EndOpenVrDrawing | rayvr.c:193-195 | the same trace as `SubmitFrames` |
| Rayvr.Core.ShutdownOpenVr | rayvr.c:197-206 | nulls the HMD and zeroes both textures after unloading them; the compositor handle is kept |
| Rayvr.DrawFrame | rayvr.c:127-195 | one frame stores the sample and updates the head pair, leaves the stack as it was and the right texture's orthographic projection loaded, submits the pre-frame left texture before the right one, and changes nothing else |
| Variants.TrackedViewsShareHeadFactor | rayvr.c:154-156 | after a valid sample both bindings use the inverse of the same cached pose as head factor, yet their view expressions differ in the eye factor (the matrices they denote may coincide) |
| Variants.UntrackedViewsDiffer | rayvr.c:154-156 | before any valid sample the C binding's head factor is the zero matrix while the C++ binding's is the inversion of the zero pose: different expressions |
| Generate.LStrip | examples/generate.py:27 | `lstrip` returns a string no longer than its input that is empty or does not start with whitespace; `Generate.LStripDropsSpace` adds that it is a suffix and that all it removes is whitespace |
| Generate.RStrip | examples/generate.py:16 | `rstrip` returns a string no longer than its input that is empty or does not end with whitespace; `Generate.RStripDropsSpace` adds that it is a prefix and that all it removes is whitespace |
| Generate.LStripDropsSpace | examples/generate.py:27 | everything `lstrip` removes is whitespace |
| Generate.RStripDropsSpace | examples/generate.py:16 | everything `rstrip` removes is whitespace |
| Generate.StripEmptyIffBlank | examples/generate.py:36 | a line strips to the empty string exactly when it is all whitespace |
| Generate.Document | examples/generate.py:16-17 | no page is produced exactly when the stripped first line does not start with `//genexample` |
| Generate.Step | examples/generate.py:26-37 | one iteration of the loop; `Generate.CommentLineOutput` and `Generate.CodeLineOutput` state what it writes and the flag it leaves, `Generate.StepWalks` that its writes are placed correctly |
| Generate.Scan | examples/generate.py:25-37 | the whole loop from `in_code_block = False`; `Generate.ScanWalks` proves its flag is whether a block is open, and the loop invariants of `Generate.Generate` tie the loop to it |
| Generate.Markdown | examples/generate.py:13-43 | the page's text; `Generate.DocumentText` and `Generate.DocumentFrame` state its shape and `Generate.Generate` is proved to write exactly it |
| Generate.CommentLineOutput | examples/generate.py:27-31 | a comment line closes an open block with a fence and a blank line, then writes the text after `//`, left-stripped; no block is open afterwards |
| Generate.BlankCommentSilent | examples/generate.py:31 | a comment of only `//` and whitespace outside a block writes nothing |
| Generate.CodeLineOutput | examples/generate.py:32-37 | any other line opens a block if none is open and is copied verbatim unless blank; a block is open afterwards |
| Generate.StepWalks | examples/generate.py:26-37 | one iteration writes fences, prose and code only where they belong, and its flag tells whether a block is open |
| Generate.ScanWalks | examples/generate.py:25-37 | over all lines, every write is in its place and the flag is whether a block is open |
| Generate.DocumentWellFenced | examples/generate.py:25-43 | the whole page is well fenced: code only inside blocks and no block left open |
| Generate.OpenFenceIsClosed | examples/generate.py:39-40 | in a well-fenced page every opening fence is followed by a closing fence |
| Generate.MarkerLineComment | examples/generate.py:16 | a marker line is a comment line whose text after `//` starts with `genexample` and has no leading whitespace |
| Generate.MarkerLineProse | examples/generate.py:27-31 | the page body starts with the prose `genexample…` from the marker line itself |
| Generate.DocumentText | examples/generate.py:19-43 | the page is header, loop output, closing fence if a block is open, blank line and footer |
| Generate.DocumentFrame | examples/generate.py:20-23 | the page starts with `# <stem>`, the screenshot line follows exactly when the PNG exists, then `genexample`; it ends with a blank line and the footer naming `<stem>.c` |
| Generate.Generate | examples/generate.py:13-43 | the generator's writes produce exactly `Markdown`, and no page when the marker is missing |
| Generate.UnterminatedCodeLineGluesFence | examples/generate.py:36-40 | as written, a last code line without a newline is followed directly by the closing fence, so a fence does not start a line |
| Generate.UnterminatedCodeLineExample | examples/generate.py:36-40 | the file `//genexample⏎`, `int x;` gives a page whose closing fence does not start a line |
| Generate.DocumentFixed | examples/generate.py:39-40 | the corrected page exists exactly when the marker is present |
| Generate.FixedFencesStartLines | examples/generate.py:36-43 | in the corrected page every fence and the footer start a line, for any file as `readlines` returns it |
| Generate.FixAgreesOnTerminatedFiles | examples/generate.py:39-40 | the correction changes nothing for files that end in a newline |

## Left out

- The OpenVR runtime and raylib are outside the model. Their answers and the ids they allocate are parameters, and what they are asked to do is recorded in `events`.
- The log texts of the error-description functions (`VR_GetVRInitErrorAsEnglishDescription`, `VR_GetVRInitErrorAsSymbol`) are not modelled; each log entry carries the error code instead.
- `GetTrackedDeviceString` (rlvr.cpp:85-97), a two-call buffer query, is not modelled: its result is the `trackingSystemName` the runtime reports.
- raylib's source is not part of this model. `BeginTextureMode` and `EndTextureMode` are modelled by their effect on the target, the projection and the modelview, as described above; the viewport they set is not modelled, and the window size is the `screenWidth`/`screenHeight` of the rlgl state.
- `rlglDraw` (a flush of rlgl's batch buffers) is not modelled, because it changes none of the matrix, stack, target or depth state the model tracks.
- Float arithmetic is not modelled. `MatrixInvert` and `MatrixMultiply` stay symbolic, and the projection and eye-to-head matrices are whatever the runtime returns.
- `BeginOpenVrDrawing` has an empty body in both bindings, so there is nothing to model.
- The `WaitGetPoses` return code is ignored by both bindings; the pose array it fills is the `sample` parameter.
- The `(void *)(unsigned int)` cast of a texture id is not modelled: ids stay natural numbers, so a truncation above 2^32 is not captured.
- The `sprintf` of the interface table names is not modelled: `Interface` names the table instead.
- `UpdateOpenVr`, `BeginEyeDrawing`, `SubmitFrames`, `EndOpenVrDrawing` and `DrawFrame` require an initialised runtime in both bindings (`hmd.Some?`, and `compositor.Some?` in the C binding). Before `InitOpenVr` or after `ShutdownOpenVr` the source dereferences a null `HMD` / `VRCORE.hmd` (rlvr.cpp:65, 71; rayvr.c:71, 77) or a null compositor, which the model does not describe.
- Window, camera and scene drawing in `main.cpp` are left out. `DrawScene` (main.cpp:21-26) pushes, reloads and pops the modelview on the same rlgl stack, but its push and pop balance, so the stack `DrawFrame` states is unchanged by it. `BeginDrawing` (main.cpp:49) reloads the current matrix before the eye brackets, and each bracket's `BeginTextureMode` reloads both matrices, so neither changes the state the brackets leave.
- raylib's `TraceLog` is assumed to return on `LOG_INFO`, `LOG_WARNING` and `LOG_ERROR` and to end the process on `LOG_FATAL`, with no log callback installed: that is, the model assumes an exit level above `LOG_ERROR`. The program never sets that level (nothing calls `SetTraceLogExit`), and the raylib API it calls (`rlglDraw`, `Camera3D.type`) is that of releases before 3.7, whose default exit level is `LOG_ERROR`; so with a default build these three behaviours do not hold: `Rayvr.Core.InitOpenVr` carrying on after the no-runtime error line (rayvr.c:87-89), its "survives exactly when" clause counting only the three `LOG_FATAL` stages, and both `SubmitFrames` still submitting the right eye after a logged left failure (rlvr.cpp:178-186, rayvr.c:180-190). Under that default each of those error lines ends the process instead, which the model does not capture.
- Not modelled in `generate.py`: the directory glob, opening and writing files, and the `print`. The test for the PNG is the `pngExists` parameter.
- The generator's input is the list of lines `readlines` returns. Newline translation is not modelled.
- An empty example file makes `lines[0]` raise `IndexError` in the source; the model requires at least one line.
- `Generate.Generate` models the source as written, including the unterminated-line behaviour under "## Findings". The corrected behaviour is `Generate.DocumentFixed`.

## Findings

| source | as written | input that shows it | evidently intended | confidence | as-written member | corrected member |
|---|---|---|---|---|---|---|
| examples/generate.py:36-40 | a last code line without a trailing newline is written as is and `"```\n"` follows it on the same line, so Markdown never sees the block closed | the lines `"//genexample\n"`, `"int x;"` give `…int x;```\n\n######…` | the closing fence starts its own line | medium, not executed | Generate.UnterminatedCodeLineGluesFence | Generate.FixedFencesStartLines |
