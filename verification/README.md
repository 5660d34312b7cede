# Solar system demo: a Dafny model

This project models the core of a small OpenGL teaching program that draws a solar system. It has two parts.

- The **application** (`application/source/application_solar.cpp`) is modelled in `solar.dfy`, module `Solar`. It holds:
  - the planet table: the Sun and eight planets with distance, orbit speed, size, rotation axis and name;
  - a buffer of randomly placed white stars;
  - a registry of shader programs, each with its source files, GL handle and requested uniform locations;
  - the W/S dolly of the camera;
  - the draw sequence, in which earth alone (the one body whose size is exactly 1.0) also gets a moon.
- The **launcher** (`framework/source/launcher.cpp`) is modelled in `framework.dfy`, module `Framework`. It:
  - derives the resource path from the command line;
  - runs the main loop (poll, draw a nine-body table, count frames);
  - shows the frame rate in the window title once a second;
  - quits on Escape or Q, or when the window's close button is clicked;
  - on R, recompiles every shader program and swaps in the new handles.

`wrappers.dfy` holds the `Option` type the launcher uses.

How the model represents the program:

- The source classes `ApplicationSolar` and `Launcher` are the classes `Solar.ApplicationSolar` and `Framework.Launcher`.
- The file-level globals `planets` and `number_of_stars` are fields of `ApplicationSolar`.
- The GL side effects the model keeps are entries appended to `ApplicationSolar.log`:
  - a draw, with the program handle it uses and the body it is for;
  - a `glDeleteProgram`;
  - the location query and the view and projection uploads;
  - a projection change.
- Matrices are not computed. Instead, the log records what a matrix depends on:
  - for a draw, the body;
  - for the view, the dolly position, counted in steps of 0.1;
  - for the projection, the framebuffer size and whether the field of view was widened.
- Floats are `real`.
- `glfwGetTime` is a parameter.
- `std::rand` is a function `rand: nat -> nat` giving the value of each call in order: call 0 chooses the number of stars, and calls 1, 2, 3, ... give the coordinates.
- The shader compiler is an oracle: a map from program to the handle a successful compilation returns. A program missing from the map fails to compile, which throws.
- The registry's keys are strings in the source ("planet", "stars", "NormalMatrix", ...). Only these names ever occur, so the model uses the enumerations `ProgramName` and `Uniform`.
- A `std::map` is visited in sorted key order, so the reload visits "planet" before "stars" (`Visiting`).
- What a poll of the window delivers is a sequence of events: a key event, a framebuffer resize, or a click on the close button. Their effect on the launcher is the fold `Poll`; one turn of the main loop is `Turn`, and the rendering loop is `Rendering`.

Facts about the code that the model makes explicit:

- The star count is `rand() % 50`, so 0–49 (`Solar.StarCount`).
- A reload visits the programs in `std::map` order and stops at the first that fails to compile. The programs before it have already been replaced and their old handles deleted. Only the failing program and those after it keep their handles (`Framework.ReloadOutcome`).
- The launcher's `key_callback` never forwards W or S to the application's `keyCallback`, so the dolly (`Solar.ApplicationSolar.KeyCallback`) is unreachable from this launcher.
- `mainLoop` never calls the application's `render()`. It builds its own table each frame, with the same numbers and empty names (`Framework.LauncherTableMatches`), and draws only those bodies. So the star field is built but never drawn by this launcher: no call `mainLoop` adds to the log is a star draw (`Framework.RenderingDrawsNoStars`, `Framework.Launcher.MainLoop`).

## Model

| member | source | states |
|---|---|---|
| Solar.SolarTable | application/source/application_solar.cpp:208-267 | the nine bodies as the source assigns them, the Sun first; their properties are stated by `SolarTableFacts` |
| Solar.SolarTableFacts | application/source/application_solar.cpp:208-267 | the table has nine bodies, in the order Sun, Mercury, venus, earth, mars, jupiter, saturn, uranus, neptun, each rotating about the y axis; only the Sun has speed 0; only earth (index 3) has size 1.0; the distances are 0, 8, 9, 10, 11, 15, 18, 14, 15, so saturn lies farther out than uranus |
| Solar.Defaults | application/source/application_solar.cpp:198-206 | n default-constructed bodies (all fields zero, empty name) |
| Solar.PlanetsAfterInit | application/source/application_solar.cpp:195-267 | `initializePlanets` as written: the list grows by nine and its first nine entries become the table. If the old list had nine or more entries, its entries from index 9 on stay where they are, followed by nine defaults. If it had fewer, they are all overwritten, and index 9 on holds as many defaults as it had entries |
| Solar.PlanetsAfterIntendedInit | application/source/application_solar.cpp:195-267 | the intended effect: the old list is kept and the table is appended after it |
| Solar.InitFromEmpty | application/source/application_solar.cpp:36-43 | from the empty list, as in the constructor, both readings give exactly the table |
| Solar.SecondInitDiffers | application/source/application_solar.cpp:195-267 | a second call on the table gives table + nine defaults, not table + table: entry 9 is a default body instead of the Sun |
| Solar.HasMoon | application/source/application_solar.cpp:75 | the moon rule: a body gets a moon when its size is exactly 1.0 (both directions are proved in `MoonDrawnIff`) |
| Solar.BodyDraws | application/source/application_solar.cpp:45-97 | the draws `upload_planet_transforms` issues: the body, then its moon when it has one |
| Solar.BodyDrawsBody | application/source/application_solar.cpp:45-97 | the draws for one body draw that body and no other |
| Solar.PlanetPass | application/source/application_solar.cpp:103-111 | the draws of one pass over a list, body by body in list order; its properties are the lemmas below |
| Solar.PassDrawsBodiesInOrder | application/source/application_solar.cpp:103-111 | the bodies drawn in one pass are exactly the list, in list order |
| Solar.PassLength | application/source/application_solar.cpp:45-97 | a pass issues one draw per body plus one per body with a moon |
| Solar.MoonFollowsHost | application/source/application_solar.cpp:72-96 | every moon draw comes right after the draw of its host, and the host has size 1.0 |
| Solar.MoonDrawnIff | application/source/application_solar.cpp:75 | a moon is drawn for a body if and only if the body is in the list and has size exactly 1.0 |
| Solar.BodiesDrawnAppend | application/source/application_solar.cpp:103-111 | the bodies drawn by two logs in sequence are those of the first followed by those of the second |
| Solar.PassSnoc | application/source/application_solar.cpp:106-109 | one more body appends exactly its own draws to the pass |
| Solar.NineBodyPass | application/source/application_solar.cpp:103-111 | a pass over nine bodies of which only the fourth has size 1.0 is exactly the nine body draws in order, with the moon's draw right after the fourth |
| Solar.SolarPass | application/source/application_solar.cpp:98-111 | a pass over the table issues ten draws, with the moon right after earth and all others body draws |
| Solar.StarCount | application/source/application_solar.cpp:309 | the number of stars, from the first random value, is below 50 |
| Solar.StarRecord | application/source/application_solar.cpp:313-323 | the six floats of star i: the coordinates from calls 1+3i, 2+3i and 3+3i of the random source, each `rand() % 25`, then 1.0 three times |
| Solar.StarBuffer | application/source/application_solar.cpp:312-324 | the records of stars 0 to n-1, in order; its layout is stated by `StarBufferLayout` |
| Solar.StarBufferSnoc | application/source/application_solar.cpp:313-323 | one more star appends, one float at a time, the coordinates from the random values at `next`, `next`+1 and `next`+2 and then 1.0 three times |
| Solar.StarBufferLayout | application/source/application_solar.cpp:306-324 | the buffer has six floats per star: slots 0–2 of star i come from calls 1+3i, 2+3i, 3+3i of the random source, and slots 3–5 are 1.0 |
| Solar.StarCoordinatesInRange | application/source/application_solar.cpp:313-315 | every coordinate is a whole number in [0, 25) |
| Solar.GenerateStars | application/source/application_solar.cpp:312-324 | the loop pushes, for each of `count` stars, three coordinates from the next three random values and then 1.0 three times, giving exactly the star layout for `count` stars |
| Solar.RequestAllSpec | application/source/application_solar.cpp:179-191 | requesting uniforms adds exactly those names, each at -1, and keeps every other location |
| Solar.RequestsInOrder | application/source/application_solar.cpp:179-182 | the requests are the four planet uniforms and the two star uniforms, in source order |
| Solar.RegisterSnoc | application/source/application_solar.cpp:179-182 | one more request after a registration sets that uniform to -1 in the named program |
| Solar.RegisterEmplaces | application/source/application_solar.cpp:176-177 | a registration with no requests is a plain `emplace` |
| Solar.RegisterSpec | application/source/application_solar.cpp:174-193 | a registration adds the program with its two files and every requested uniform at -1; `emplace` keeps an existing entry's files and handle; other programs are untouched |
| Solar.ShaderSetup | application/source/application_solar.cpp:174-193 | the registry after `initializeShaderPrograms`'s statements, one `emplace` or request at a time |
| Solar.InitialShaders | application/source/application_solar.cpp:174-193 | the same setup read as two registrations: "planet" with its four uniforms, then "stars" with its two |
| Solar.ShaderSetupRegisters | application/source/application_solar.cpp:174-193 | the statement-by-statement setup equals registering "planet" and then "stars" with their uniform lists |
| Solar.InitialShadersExact | application/source/application_solar.cpp:174-193 | from an empty registry, the whole registry: "planet" with `shaders/simple.vert` and `shaders/simple.frag` under the resource path, no handle yet, and its four uniforms at -1; "stars" with `shaders/stars.vert` and `shaders/stars.frag`, no handle yet, and its two uniforms at -1; nothing else |
| Solar.SetupReady | application/source/application_solar.cpp:174-193 | after setup, both programs exist with every uniform they upload |
| Solar.Visiting | framework/source/launcher.cpp:236 | the order in which the range-for visits the registry built at application/source/application_solar.cpp:176-186, which is `std::map` key order: every program once, "planet" before "stars" |
| Solar.DollyStep | application/source/application_solar.cpp:162-171 | the view's move for a key event, in steps of 0.1 along local z: W pressed is -1, S pressed is +1, anything else 0 |
| Solar.DollyInverse | application/source/application_solar.cpp:162-171 | W moves the view by -0.1 along z and S by +0.1, so W then S returns to the start |
| Solar.DollyOnlyOnPress | application/source/application_solar.cpp:163-170 | the view moves if and only if W or S is pressed |
| Solar.ApplicationSolar.constructor | application/source/application_solar.cpp:36-43 | stars, then planets, then shaders: the count is `rand() % 50`; the buffer is the star layout; the list is the table; the registry is the setup; the view is at the start and nothing is drawn |
| Solar.ApplicationSolar.InitializePlanets | application/source/application_solar.cpp:195-267 | the new list is `PlanetsAfterInit` of the old one |
| Solar.ApplicationSolar.PushDefaults | application/source/application_solar.cpp:198-206 | nine default bodies are appended |
| Solar.ApplicationSolar.AssignTable | application/source/application_solar.cpp:208-267 | entries 0–8 become the table and the rest are kept |
| Solar.ApplicationSolar.InitializeStars | application/source/application_solar.cpp:306-324 | the count is call 0 of the random source modulo 50, and the buffer holds that many star records |
| Solar.ApplicationSolar.InitializeShaderPrograms | application/source/application_solar.cpp:174-193 | the registry becomes the setup of the old registry, and is ready to draw |
| Solar.ApplicationSolar.Emplace | application/source/application_solar.cpp:176-177 | `emplace`: inserts a new program without a handle, or leaves an existing one as it is |
| Solar.ApplicationSolar.RequestLocation | application/source/application_solar.cpp:179 | sets one uniform of one program to -1 |
| Solar.ApplicationSolar.UploadPlanetTransforms | application/source/application_solar.cpp:45-97 | one body draw with the planet program, then a moon draw when the size is 1.0 |
| Solar.ApplicationSolar.RenderPlanets | application/source/application_solar.cpp:103-111 | the log grows by the pass over the whole list |
| Solar.ApplicationSolar.RenderStars | application/source/application_solar.cpp:113-125 | one point draw of `number_of_stars` with the stars program |
| Solar.ApplicationSolar.Render | application/source/application_solar.cpp:98-101 | stars first, then the pass over the list |
| Solar.ApplicationSolar.UpdateView | application/source/application_solar.cpp:127-137 | with both programs registered, the view at the current dolly position is uploaded |
| Solar.ApplicationSolar.UploadUniforms | application/source/application_solar.cpp:150-159 | with both programs registered: locations re-queried, then view, then projection uploaded |
| Solar.ApplicationSolar.SetProjectionFor | framework/source/launcher.cpp:228 | one projection change for the given size, recorded as widened or not |
| Solar.ApplicationSolar.KeyCallback | application/source/application_solar.cpp:162-171 | the dolly moves by `DollyStep`, and the view is re-uploaded exactly when it moved |
| Framework.FindLastSeparator | framework/source/launcher.cpp:54 | `find_last_of("/\\")`: the index of a separator with none after it, or none when the path has no separator |
| Framework.ResourcePath | framework/source/launcher.cpp:45-59 | the first argument if given; otherwise a prefix of the executable path cut at its last separator (or the whole path if it has none), followed by "/../../resources/" |
| Framework.DecimalString | framework/source/launcher.cpp:285 | `std::to_string` of a count: decimal digits with no leading zero |
| Framework.DecimalRoundTrip | framework/source/launcher.cpp:285 | reading the digits back gives the count |
| Framework.FpsTitle | framework/source/launcher.cpp:284-285 | the title `show_fps` sets for a count; what it contains is stated by `TitleReportsCount` |
| Framework.TitleReportsCount | framework/source/launcher.cpp:284-285 | the title is "OpenGL Framework - ", the digits of the count and " fps", and the count can be read back from it |
| Framework.Tick | framework/source/launcher.cpp:280-291 | one frame: a report of frames+1, restarting the count at `now`, if and only if a second has passed; otherwise the count grows by one |
| Framework.Run | framework/source/launcher.cpp:280-291 | a run of `show_fps` calls at the given times: the final counter and the counts reported, in order |
| Framework.FramesCountedOnce | framework/source/launcher.cpp:280-291 | over any run of frames, the reported counts plus the pending count equal the initial count plus the number of frames |
| Framework.QuietSecond | framework/source/launcher.cpp:283 | while less than a second has passed, nothing is reported and each frame adds one |
| Framework.Dispatch | framework/source/launcher.cpp:270-277 | quit if and only if Escape or Q is pressed; reload if and only if R is pressed |
| Framework.CompiledPrefix | framework/source/launcher.cpp:236-244 | the number of programs compiled before the first that throws: all before it compiled, and it did not |
| Framework.Reloaded | framework/source/launcher.cpp:236-244 | the registry once the given programs, one after the other, have had their handle replaced by the compiler's; its meaning is stated by `ReloadedSpec` |
| Framework.ReloadedSpec | framework/source/launcher.cpp:236-244 | a reload keeps every program and changes only the handles of the reloaded ones, to the compiler's result |
| Framework.Deletions | framework/source/launcher.cpp:241 | the `glDeleteProgram` calls for the old handles of the given programs; their layout is stated by `DeletionsLayout` |
| Framework.DeletionsLayout | framework/source/launcher.cpp:241 | one `glDeleteProgram` per reloaded program, of its old handle, in order |
| Framework.DeletionsSnoc | framework/source/launcher.cpp:241 | one more reloaded program adds one deletion of its old handle at the end |
| Framework.ReloadedSnoc | framework/source/launcher.cpp:243 | one more loop step swaps in one more handle |
| Framework.VisitingOnce | framework/source/launcher.cpp:236 | the visiting order lists no program twice: the program at position i does not occur before it |
| Framework.ReloadUntouched | framework/source/launcher.cpp:236 | a program is visited once, so it still has its old handle when it is reached |
| Framework.ReloadStep | framework/source/launcher.cpp:238-243 | a loop step deletes the old handle of the current program and stores the new one |
| Framework.ReloadOutcome | framework/source/launcher.cpp:232-257 | after a reload, the programs compiled before the first failure have new handles and their old handles were deleted in visiting order; the failing program and those after it keep their handles |
| Framework.ReloadKeepsReady | framework/source/launcher.cpp:236-244 | a reload leaves both programs and all their uniforms in place |
| Framework.ReloadedPrefix | framework/source/launcher.cpp:236-244 | the programs a reload recompiles, those before the first failure in visiting order; every one of them is registered |
| Framework.AfterReload | framework/source/launcher.cpp:232-266 | `update_shader_programs` when nothing escapes: it keeps every program, a ready registry stays ready, and the close flag and framebuffer size do not change |
| Framework.AfterReloadIs | framework/source/launcher.cpp:246-265 | the registry after the reload loop, with the deletions, the uniform upload and the projection update logged in that order, is the window after the reload |
| Framework.ReloadDrawsNoStars | framework/source/launcher.cpp:232-266 | a reload only appends to the log, and none of what it appends is a star draw |
| Framework.DeletionsDrawNoStars | framework/source/launcher.cpp:241 | the deletions of a reload draw nothing |
| Framework.Handle | framework/source/launcher.cpp:270-277 | the effect of one polled event (Escape, Q or the close button sets the close flag; R reloads; a resize records the size and updates the projection); it keeps every program, and a ready registry stays ready |
| Framework.Poll | framework/source/launcher.cpp:126 | the effect of the events of one poll, in order; it keeps every program, and a ready registry stays ready |
| Framework.PollCloses | framework/source/launcher.cpp:124-126 | after a poll the close flag is set if and only if it was set before or some event asked to close |
| Framework.PollSize | framework/source/launcher.cpp:100-103 | after a poll the framebuffer size is that of the last event if it was a resize, and unchanged if no event was a resize |
| Framework.PollDrawsNoStars | framework/source/launcher.cpp:126 | no event of a poll draws the star field; the log only grows |
| Framework.LauncherTable | framework/source/launcher.cpp:130-193 | the nine entries `mainLoop` builds each frame, names left empty; their relation to the application's table is `LauncherTableMatches` |
| Framework.LauncherTableMatches | framework/source/launcher.cpp:130-193 | the main loop's table has the application's numbers, with empty names |
| Framework.LauncherPass | framework/source/launcher.cpp:197-201 | a frame issues ten draws with the moon right after earth, and draws exactly the nine bodies in order |
| Framework.Turn | framework/source/launcher.cpp:124-207 | one turn of the loop: the poll, then the table's pass with the planet program, then `show_fps`; it keeps every program, and a ready registry stays ready |
| Framework.TurnCloses | framework/source/launcher.cpp:124-126 | a turn sets the close flag exactly when one of its events asks to close |
| Framework.TurnDrawsNoStars | framework/source/launcher.cpp:126-207 | a turn only appends to the log, and never a star draw |
| Framework.Rendering | framework/source/launcher.cpp:124-208 | the rendering loop: turns while the window is not asked to close; it keeps every program, keeps a ready registry ready, and takes at most one turn per input |
| Framework.RenderingStep | framework/source/launcher.cpp:124 | on an open window, the loop from the i-th input is one turn and then the loop from the next input |
| Framework.RenderingDrawn | framework/source/launcher.cpp:124-208 | started on an open window, the loop draws `FramesDrawn` frames, and ends with the close flag set exactly when the last frame drawn asked to close |
| Framework.RenderingCount | framework/source/launcher.cpp:207 | the counter after the loop is that of a run of `show_fps` calls at the drawn frames' clock readings, so each drawn frame is counted once |
| Framework.RenderingDrawsNoStars | framework/source/launcher.cpp:124-208 | the loop only appends to the log, and never a star draw |
| Framework.FramesDrawn | framework/source/launcher.cpp:124-208 | frames are drawn up to and including the first whose events ask to close, and none after it |
| Framework.FramesDrawnStep | framework/source/launcher.cpp:124-126 | from the i-th input, a frame whose events ask to close is the last drawn; otherwise one frame is drawn and the count goes on from the next input |
| Framework.Launcher.constructor | framework/source/launcher.cpp:34-43 | the resource path from the command line, a 2048x960 window titled "OpenGL Framework", the counter at zero, and a new application created on that path, in the state its constructor gives: the star count and buffer from the random source, the table, the shader setup, the view at the start and nothing logged |
| Framework.Launcher.ShowFps | framework/source/launcher.cpp:280-291 | the counter advances by `Tick`, and the title changes to the report exactly when there is one |
| Framework.Launcher.UpdateProjection | framework/source/launcher.cpp:215-229 | a projection change for the size, widened exactly when width < height |
| Framework.Launcher.ReloadPrograms | framework/source/launcher.cpp:234-244 | the reload loop: the registry becomes the reload of the compiled prefix, its old handles are deleted in visiting order, it fails exactly when some program does not compile, and the registry stays ready |
| Framework.Launcher.UpdateShaderPrograms | framework/source/launcher.cpp:232-266 | a failure escapes if and only if the reload is the throwing one, leaving the partial reload and its deletions; otherwise the window ends as `AfterReload` says, with the uniforms and projection uploaded |
| Framework.Launcher.KeyCallback | framework/source/launcher.cpp:270-277 | Escape or Q sets the close flag; R reloads without throwing; nothing else changes anything; the effect is `Handle` of the key event |
| Framework.Launcher.Resized | framework/source/launcher.cpp:100-103 | the framebuffer size is recorded and the projection updated for it; the effect is `Handle` of the resize |
| Framework.Launcher.ProcessEvents | framework/source/launcher.cpp:126 | the close flag, framebuffer size, registry and log after the poll are `Poll` of the events; so the close flag is set if and only if it was set before or some event asked to close |
| Framework.Launcher.BuildFrameTable | framework/source/launcher.cpp:130-193 | the table built each frame is `LauncherTable` |
| Framework.Launcher.DrawFrame | framework/source/launcher.cpp:128-207 | one frame draws the table's pass with the planet program, then counts the frame |
| Framework.Launcher.Frame | framework/source/launcher.cpp:124-207 | the window, registry, log, counter and title after one turn are `Turn` of the old ones; the close flag is set exactly when an event asked to close |
| Framework.Launcher.RunFrames | framework/source/launcher.cpp:124-208 | the final state and the number of frames drawn are those of `Rendering` from the state before |
| Framework.Launcher.MainLoop | framework/source/launcher.cpp:114-211 | a failing first compilation escapes before any frame, leaving the partial reload. Otherwise the loop runs as `Rendering` from the state after the reload, drawing `FramesDrawn` frames and ending closed exactly when the last frame asked for it. Either way, nothing it logs is a star draw |

## Left out

- GL calls other than those recorded in the log. This covers buffer and vertex-array setup (the star buffer upload, `initializeGeometry`), `glUseProgram`, `glClear`, the depth test, the buffer swap and the destructor's deletions.
- Matrix arithmetic (glm): the model, normal, view and projection matrices and the field-of-view formula. The log records only what each matrix depends on.
- `updateUniformLocations`, `utils::validate_program`, `shader_loader` (an oracle here), `model_loader` and the `model` type are not part of this model.
- Solar.ApplicationSolar.UploadUniforms: the re-query of the uniform locations is recorded in the log only, so the locations in the registry stay at -1.
- `application.hpp`, `application.cpp`, `launcher.hpp` and `structs.hpp` are not part of this model. This covers:
  - `Application::setProjection`, modelled as the `SetProjection` log entry;
  - `getShaderPrograms`, taken to give the registry itself;
  - `Launcher::run`, which creates the application after the launcher and is folded into `Framework.Launcher.constructor`.
- `Launcher::initialize` (GLFW set-up, window hints, callback registration), `quit`, `glsl_error`, `watch_gl_errors` and `std::exit`.
- Console output (`std::cout`, `std::cerr`).
- float32 rounding: floats are exact reals.
- Solar.ApplicationSolar.constructor: the globals `planets` and `number_of_stars` are fields of each `Application`. In the source, a second `ApplicationSolar` in the same process would start from the first one's list, so its `initializePlanets` would see the table already there. `planets == SolarTable()` after construction therefore holds for the first application of a process only; `Solar.SecondInitDiffers` states what a second initialisation gives.
- Framework.Launcher.ShowFps: does not model the wrap-around of the unsigned frame counter, which would need more than four billion frames in one second.
- Framework.Launcher.Resized: the framebuffer size is taken as reported. The distinction between window size and framebuffer size on high-density displays is not modelled.
- Framework.Launcher.MainLoop: the frames are a finite sequence, so the loop (`Framework.Rendering`, `Framework.Launcher.RunFrames`) also ends when they run out. A real session ends only by a close request.
- Framework.Launcher.Frame: key events carry the compile outcome of the reload they may trigger, since compilation reads files.
- Framework.Handle: window events other than keys, framebuffer resizes and the close button (mouse, focus, window moves) have no callback in the launcher and are not modelled.
- Solar.ApplicationSolar.UploadPlanetTransforms: the rotation angle `glfwGetTime() * speed` is part of the matrix and is not recorded.

## Findings

| source | as written | input that shows it | evidently intended | confidence | as-written member | corrected member |
|---|---|---|---|---|---|---|
| application/source/application_solar.cpp:198-267 | `initializePlanets` pushes nine default bodies onto the global list, then assigns the table to indices 0–8 | calling it on a list that already holds the table (a second call) gives the table followed by nine default bodies | the nine pushed entries receive the table, so the list becomes the old list followed by the table | not executed | Solar.PlanetsAfterInit, Solar.SecondInitDiffers | Solar.PlanetsAfterIntendedInit, Solar.InitFromEmpty |
