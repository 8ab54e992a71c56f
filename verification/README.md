# StereoKit lifecycle core, modelled in Dafny

This project models how StereoKit brings itself up, runs frames, switches displays and shuts down. It covers two generations of that code.

- **`Platform`** (`platform.dfy`) covers the platform layer of `StereoKitC/platforms/platform.cpp`:
  - which display type runs: none, stereo through OpenXR, or a flatscreen window paired with the simulator or the empty "none" XR backend;
  - `platform_init` with its OS, sk_gpu, display and flatscreen-fallback steps;
  - `platform_set_mode` and `platform_stop_mode`;
  - the per-frame dispatch of `platform_step_begin` and `platform_step_end`;
  - `platform_shutdown`.

  The class `Platform.Device` holds `device_data.display_type` and the ordered record of every foreign routine invoked so far. Its invariant `Valid()` says that every backend left running by that record belongs to the current display type. `SetMode`, `StopMode`, `StepBegin`, `StepEnd`, `Shutdown`, `Init` and the start-up steps `Init` is built from all keep that invariant. The two start helpers `StartStereo` and `StartFlat` run only inside `SetMode`, after it has stopped the old display type and recorded the new one.
- **`StereoKit`** (`stereokit.dfy`) covers the engine glue of `StereoKitC/stereokit.cpp`:
  - the runtime globals and `sk_set_settings`;
  - the older `platform_init` with its flatscreen fallback, and the matching shutdown and frame dispatchers;
  - `sk_app_update`, `sk_init`, `sk_shutdown`, `sk_step` and `sk_active_runtime`.

  The class `StereoKit.Engine` holds those globals.
- **`Systems`** (`systems.dfy`) states what a subsystem registration table guarantees to any scheduler that honours it. It defines:
  - unique names and registered dependencies;
  - dependency edges and acyclicity;
  - what it means for an order to respect the initialisation or update relation.

  It proves that a respecting order exists only for an acyclic table.
- **`SkSystems`** (`sk_systems.dfy`) is the concrete table of eleven registrations that `sk_init` makes. It proves that table well formed. It also derives the chains of subsystems that every honouring scheduler must keep in order: Graphics, Defaults, Platform, Input at start-up, and FrameBegin through FramePresent in each frame.

**Foreign code and oracles.** The operating-system layer, OpenXR, sk_gpu, the simulator and "none" backends, the platform utilities, the Win32 window and the subsystem scheduler are all foreign code.
- Each call into them is appended to a `calls` sequence.
- Whatever they answer comes from a `Host` value passed in.
- Within one top-level routine, each foreign routine is asked at most once, so one fixed answer per routine is exact.

**Build switches.** The build switches become plain values:
- `Env.openXr` for `SK_XR_OPENXR`;
- `Engine.flatscreen` for the absence of `SK_NO_FLATSCREEN`.

The per-OS `#if` chains collapse into one OS layer (`OsInit`, `OsStartFlat`, …) because every branch has the same shape.

**The table has eleven entries.** `sk_init` registers eleven subsystems (`StereoKitC/stereokit.cpp:127-170`): Graphics, Defaults, Platform, Physics, Renderer, Input, Text, App, FrameBegin, FrameEnd and FramePresent.

## Model

| member | source | states |
|---|---|---|
| Platform.TypeOfMode | StereoKitC/platforms/platform.cpp:70-76 | converting the legacy display preference to a display type is undone by the reverse mapping |
| Platform.TypeOfModeIsBijective | StereoKitC/platforms/platform.cpp:70-76 | the preference-to-display-type conversion is a bijection, both directions of the iff |
| Platform.StopTearsDown | StereoKitC/platforms/platform.cpp:283-309 | stopping a display type takes down exactly the backends it owns and leaves any other backend running |
| Platform.StartBringsUp | StereoKitC/platforms/platform.cpp:150-203 | starting a display type brings up only backends it owns, and all of them when the start reports success |
| Platform.StartThenStopLeavesNothing | StereoKitC/platforms/platform.cpp:150-203 | stopping a display type right after starting it leaves nothing running, even after a failed start |
| Platform.StereoStartIsChain | StereoKitC/platforms/platform.cpp:151-188 | the stereo start is a short-circuit chain of pre-XR hook, OpenXR (when built in) and post-XR hook; each step runs iff every earlier one succeeded, and the result is their conjunction |
| Platform.FlatscreenStartPicksOneBackend | StereoKitC/platforms/platform.cpp:189-202 | a flatscreen start reports only the window's result, and it starts the none backend iff the MR simulator is disabled, otherwise the simulator |
| Platform.NoDisplayAlwaysSucceeds | StereoKitC/platforms/platform.cpp:137-150 | switching to no display always reports success and starts nothing |
| Platform.StopsPrecedeStarts | StereoKitC/platforms/platform.cpp:137-203 | in a mode switch, every call that stops a backend comes before every call that starts one |
| Platform.StepCallsAreNeutral | StereoKitC/platforms/platform.cpp:210-279 | the frame routines neither start nor stop any backend |
| Platform.StepDispatchMatchesMode | StereoKitC/platforms/platform.cpp:210-279 | frame begin and frame end each drive exactly the backends of the current display type: nothing for none, OpenXR for stereo, the window plus the simulator or the none backend for flatscreen |
| Platform.StartCallsStartDisplay | StereoKitC/platforms/platform.cpp:150-203 | everything a display start invokes is one of the display-start routines: the OS pre-XR, post-XR and flat hooks, OpenXR's initialiser, and the none or simulator initialiser |
| Platform.InitStopsAtOsFailure | StereoKitC/platforms/platform.cpp:24-42 | if the OS layer fails, start-up reports failure with fail reason 80, never starts sk_gpu, invokes no display-start routine, and starts no backend |
| Platform.InitStopsAtGpuFailure | StereoKitC/platforms/platform.cpp:64-67 | a non-positive sk_gpu status makes start-up fail with fail reason 95 before any display mode is set: no display-start routine is invoked and no backend starts |
| Platform.InitFallbackPolicy | StereoKitC/platforms/platform.cpp:78-89 | the fail reason is cleared iff start-up takes the flatscreen fallback; the fallback happens only from a stereo request, leaves the display flatscreen, and its outcome is the flatscreen start's and the utilities' |
| Platform.NoClearInSetMode | StereoKitC/platforms/platform.cpp:137-206 | a mode switch never clears the fail reason |
| Platform.InitSuccessMode | StereoKitC/platforms/platform.cpp:24-91 | a successful start-up runs the requested display type, or flatscreen after the fallback, and has started the platform utilities |
| Platform.Device.constructor | StereoKitC/platforms/platform.cpp:24-25 | a fresh device runs no display, has invoked nothing, and satisfies the backend invariant |
| Platform.Device.StopMode | StereoKitC/platforms/platform.cpp:283-309 | the stop routines of the current display type are invoked, the display type becomes none, and no backend is left running |
| Platform.Device.StartStereo | StereoKitC/platforms/platform.cpp:151-188 | performs the stereo start chain and returns its result |
| Platform.Device.StartFlat | StereoKitC/platforms/platform.cpp:189-202 | performs the flatscreen start and returns the window's result |
| Platform.Device.SetMode | StereoKitC/platforms/platform.cpp:137-206 | a request for the current type does nothing and succeeds; otherwise the current type is stopped, the new type is recorded whatever the outcome, and it is started; the backend invariant is kept |
| Platform.Device.StepBegin | StereoKitC/platforms/platform.cpp:210-250 | dispatches the frame start to the current display type, then updates the platform utilities; the display type and the invariant are kept |
| Platform.Device.StepEnd | StereoKitC/platforms/platform.cpp:254-279 | dispatches the frame end to the current display type; the display type and the invariant are kept |
| Platform.Device.Shutdown | StereoKitC/platforms/platform.cpp:95-113 | stops the utilities, stops the display mode, then shuts down sk_gpu, the OS layer and the device data; nothing is left running |
| Platform.Device.StartRequestedDisplay | StereoKitC/platforms/platform.cpp:70-89 | sets the display type converted from the preference; if that fails and the fallback is allowed, clears the fail reason and sets flatscreen |
| Platform.Device.StartGraphics | StereoKitC/platforms/platform.cpp:47-68 | queries the OpenXR adapter only for a mixed-reality preference with OpenXR built in, hooks the sk_gpu log, starts sk_gpu, and reports whether its status was positive |
| Platform.Device.StartDisplayAndUtils | StereoKitC/platforms/platform.cpp:70-90 | performs the display step and starts the utilities only if it succeeded; the result is both outcomes combined |
| Platform.Device.StartGraphicsAndDisplay | StereoKitC/platforms/platform.cpp:44-90 | performs the graphics step and goes on to the display only if sk_gpu came up |
| Platform.Device.Init | StereoKitC/platforms/platform.cpp:24-91 | runs the whole start-up sequence: device data, OS, graphics, display with fallback, then utilities; result and final display type are as specified, and the backend invariant holds |
| StereoKit.AtMostTwoAttempts | StereoKitC/stereokit.cpp:57-79 | the older platform_init makes at most two runtime attempts; a second one happens iff it falls back, and that second attempt is the flatscreen runtime |
| StereoKit.FallbackPolicy | StereoKitC/stereokit.cpp:57-79 | falling back happens iff the first attempt failed, fallback was requested, mixed reality was tried and flatscreen is built in; afterwards the runtime is flatscreen and the result is its attempt's; success needs a built-in runtime |
| StereoKit.LastAttemptIsFinalRuntime | StereoKitC/stereokit.cpp:57-79 | the runtime platform_init leaves selected is the one it tried last |
| StereoKit.DispatchTargetsRuntime | StereoKitC/stereokit.cpp:80-115 | shutdown, frame begin, frame end and present reach only the selected runtime; shutdown and both frame routines reach it whenever it is built in |
| StereoKit.ShutdownMatchesLastAttempt | StereoKitC/stereokit.cpp:57-87 | shutdown after platform_init reaches the runtime of its last attempt |
| StereoKit.AppUpdateCalls | StereoKitC/stereokit.cpp:117-120 | the application callback runs exactly when one is set, once, and no other callback runs |
| StereoKit.StepCalls | StereoKitC/stereokit.cpp:194-202 | a step runs exactly one update pass and idles 250 ms iff the application is unfocused |
| StereoKit.Engine.constructor | StereoKitC/stereokit.cpp:18-26 | initial globals: flatscreen runtime, no fallback, the default settings 100, 100, 800, 480, focused, running, graphics not up |
| StereoKit.Engine.SetSettings | StereoKitC/stereokit.cpp:49-55 | the settings are replaced unless the graphics device is already up, in which case nothing changes |
| StereoKit.Engine.PlatformInit | StereoKitC/stereokit.cpp:57-79 | tries the selected runtime, then flatscreen under the fallback policy; the runtime and result follow that policy |
| StereoKit.Engine.PlatformShutdown | StereoKitC/stereokit.cpp:80-87 | shuts down the selected runtime, or does nothing for flatscreen when it is not built in |
| StereoKit.Engine.BeginFrame | StereoKitC/stereokit.cpp:89-98 | starts the selected runtime's frame, then updates the timer |
| StereoKit.Engine.EndFrame | StereoKitC/stereokit.cpp:100-107 | ends the selected runtime's frame |
| StereoKit.Engine.Present | StereoKitC/stereokit.cpp:108-115 | presents with vsync for flatscreen and does nothing for mixed reality |
| StereoKit.Engine.AppUpdate | StereoKitC/stereokit.cpp:117-120 | invokes the stored callback when one is set |
| StereoKit.Engine.RegisterStartupSystems | StereoKitC/stereokit.cpp:127-154 | appends the registrations of Graphics, Defaults, Platform, Physics, Renderer and Input, in that order |
| StereoKit.Engine.RegisterFrameSystems | StereoKitC/stereokit.cpp:156-170 | appends the registrations of Text, App, FrameBegin, FrameEnd and FramePresent, in that order |
| StereoKit.Engine.Init | StereoKitC/stereokit.cpp:122-173 | stores the preference, fallback flag and name, appends the whole eleven-entry table, then runs the initialisation pass and returns its result; the graphics flag is raised when the pass brings the graphics device up, after which the settings guard rejects changes; if the pass reaches the registered platform_init, the runtime follows its fallback policy, so the runtime ends as the preference or, after a fallback, flatscreen |
| StereoKit.Engine.Shutdown | StereoKitC/stereokit.cpp:175-177 | runs the shutdown pass; when the pass reaches the registered platform_shutdown, the selected runtime is shut down, which after start-up is the runtime of platform_init's last attempt |
| StereoKit.Engine.Step | StereoKitC/stereokit.cpp:194-202 | stores the callback and runs one update pass; the idle is decided by the focus that pass leaves, and the result is the run flag that pass leaves |
| StereoKit.Engine.ActiveRuntime | StereoKitC/stereokit.cpp:208 | returns the selected runtime |
| Systems.Names | StereoKitC/stereokit.cpp:127-170 | the registered names, one per registration, in registration order |
| Systems.Lookup | StereoKitC/stereokit.cpp:127-170 | finds a registration carrying the name iff the name is registered |
| Systems.RespectingOrderImpliesAcyclic | StereoKitC/stereokit.cpp:127-172 | any table, whether or not every dependency is registered, that admits an order putting every dependency first has no dependency cycle |
| Systems.OrderImpliesUniqueNames | StereoKitC/stereokit.cpp:127-172 | a table whose names can be listed once each has unique names |
| Systems.RankedRespects | StereoKitC/stereokit.cpp:127-172 | a numbering by position that every dependency edge climbs certifies a respecting order |
| Systems.DeclaredDepIsEdge | StereoKitC/stereokit.cpp:127-170 | with unique names, every dependency a registration declares is a dependency edge of the table |
| Systems.BackwardEdgeRefutes | StereoKitC/stereokit.cpp:127-172 | one dependency placed after its dependent refutes an order |
| SkSystems.OrdersListEveryName | StereoKitC/stereokit.cpp:127-170 | registration order and the chosen per-frame order each list all eleven names exactly once |
| SkSystems.TableDepsRegistered | StereoKitC/stereokit.cpp:127-170 | every name any registration depends on is itself registered |
| SkSystems.RegistrationOrderInitializes | StereoKitC/stereokit.cpp:127-170 | registration order already honours every initialisation dependency |
| SkSystems.UpdateOrderRespects | StereoKitC/stereokit.cpp:136-170 | a per-frame order exists that honours every update dependency |
| SkSystems.SkInitTableWellFormed | StereoKitC/stereokit.cpp:127-172 | the table has unique names, registered dependencies, and no cycle in either relation |
| SkSystems.InitAnchors | StereoKitC/stereokit.cpp:127-154 | every honouring initialisation order brings up Graphics, Defaults, Platform, then Input |
| SkSystems.FrameAnchors | StereoKitC/stereokit.cpp:136-170 | every honouring per-frame order runs FrameBegin, Input, Physics, Renderer, App, Text, FrameEnd, then FramePresent |
| SkSystems.RegistrationOrderIsNotAnUpdateOrder | StereoKitC/stereokit.cpp:135-154 | registration order is no per-frame order: Physics is registered before Input but must update after it |

## Left out

- The subsystem scheduler: `systems_initialize`, `systems_update` and `systems_shutdown` are foreign and appear only as recorded calls with an answer from `Host`. `systems_add` is modelled as appending one registration to `Engine.registry`. No sort over the table is modelled; `Systems.Respects` characterises the orders such a sort may produce.
- `sk_update_timer` and the time getters: clock reads and floating point. `UpdateTimer` is only a recorded call.
- `sk_create_defaults` and `sk_destroy_defaults`: asset creation, reached only through the scheduler.
- Logging: every log line is left out, except that the fail reason is set (codes 80 and 95) and cleared.
- `device_data_init` and `device_data_free` are recorded calls only. What `device_data_init` writes into the display type is not visible, so start-up keeps the display type it finds (a fresh `Platform.Device` has none).
- `platform_set_window` and `platform_set_window_xam`: they only pass the window on to the Android layer, and do nothing on every other system.
- The per-OS `#if` chains: one OS layer stands in for the Android, Linux, UWP, Win32 and Web variants.
- The OS pre- and post-XR hooks of a stereo start are recorded but not tracked as backends, because `platform_stop_mode` has no counterpart that stops them.
- The adapter name string copy, the sk_gpu log callback's body and the OpenXR adapter identifier's value: only the calls are recorded.
- The application callback's identity is a number; what the callback does is foreign.
- Sleeping: `sk_step`'s sleep is an `Idle` event carrying its duration.
- Threads and concurrent access to the globals.
- Settings changing after start-up: a `Platform.Device` reads its settings from `env`, fixed for its whole life. The source re-reads `disable_flatscreen_mr_sim` at every start, frame and stop (`StereoKitC/platforms/platform.cpp:201`, `:245`, `:264`, `:293`). If the flag flipped between a flatscreen start and its stop, the source would stop the wrong XR backend and leave the other running. The invariant `Valid()` and the start/stop lemmas hold only for settings that do not change.
- The scheduler's initialisation pass in `sk_init` and its update pass in `sk_step`: which initialisers and update callbacks they run, and in what order, is foreign. `StereoKit.Engine.Init` takes from `Host` whether the initialisation pass reached `platform_init` and whether it brought the graphics device up (`sk_d3d_initialized` is written only by the graphics code, outside stereokit.cpp). `StereoKit.Engine.Shutdown` takes from `Host` whether the shutdown pass reached `platform_shutdown`; the other shutdown callbacks are not recorded. These answers are independent of one another, although an honouring scheduler runs the Graphics initialiser before the Platform one. The result `Init` returns is the pass's own answer from `Host`; it is not tied to the results of the initialisers the pass ran, `platform_init`'s included. `StereoKit.Engine.Step` takes from `Host` the focus and run flags the update pass leaves. The frame routines and the application callback that the update pass runs are not recorded inside the step.
- Whether a backend's session really exists: when OpenXR is built in, stopping a stereo display calls `openxr_shutdown` even after a start that failed before `openxr_init`. The model records that call as written.
