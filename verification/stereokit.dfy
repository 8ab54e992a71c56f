/**
 * The engine's lifecycle glue: the global runtime selection with its flatscreen
 * fallback, the per-frame dispatch to whichever runtime was selected, the settings
 * guard, the application callback, the subsystem registrations made by start-up,
 * and the single step of the main loop.
 *
 * The runtimes themselves (OpenXR, the Win32 window), the subsystem scheduler and
 * the sleep are foreign: the model records each call in `calls` and takes what it
 * answers from a `Host` value.
 */
module StereoKit {
  import opened Wrappers
  import opened Systems
  import opened SkSystems

  /** sk_runtime_ */
  datatype Runtime = RuntimeFlatscreen | RuntimeMixedReality

  /** sk_settings_t: the flatscreen window's position and size. */
  datatype SkSettings = SkSettings(
    flatscreenPosX: int,
    flatscreenPosY: int,
    flatscreenWidth: int,
    flatscreenHeight: int)

  /** The settings in force until the application replaces them. */
  const DefaultSettings := SkSettings(100, 100, 800, 480)

  /** How long the loop idles per step while the application is not focused, in milliseconds. */
  const UnfocusedIdleMs := 250

  /** Foreign routines the engine invokes. */
  datatype Call =
    | OpenXrInit | Win32Init | OpenXrShutdown | Win32Shutdown
    | OpenXrStepBegin | Win32StepBegin | OpenXrStepEnd | Win32StepEnd | Win32Vsync
    | UpdateTimer
    | AppCallback(id: nat)
    | SystemsInitialize | SystemsUpdate | SystemsShutdown
    | Idle(ms: nat)

  /**
   * What the foreign code answers: the runtime initialisers; the scheduler's
   * initialisation pass, whether that pass reached the Platform initialiser and
   * whether it brought the graphics device up; the focus and run flags the runtimes
   * and the application leave behind after an update pass; and whether the
   * shutdown pass reached the Platform shutdown callback.
   */
  datatype Host = Host(
    openXrInit: bool,
    win32Init: bool,
    systemsInitialize: bool,
    platformInitRuns: bool,
    graphicsUp: bool,
    focusedAfterUpdate: bool,
    runAfterUpdate: bool,
    platformShutdownRuns: bool)

  /** The runtime a call belongs to, if it belongs to one. */
  function BackendOf(c: Call): Option<Runtime>
  {
    match c
    case OpenXrInit => Some(RuntimeMixedReality)
    case OpenXrShutdown => Some(RuntimeMixedReality)
    case OpenXrStepBegin => Some(RuntimeMixedReality)
    case OpenXrStepEnd => Some(RuntimeMixedReality)
    case Win32Init => Some(RuntimeFlatscreen)
    case Win32Shutdown => Some(RuntimeFlatscreen)
    case Win32StepBegin => Some(RuntimeFlatscreen)
    case Win32StepEnd => Some(RuntimeFlatscreen)
    case Win32Vsync => Some(RuntimeFlatscreen)
    case _ => None
  }

  /** A call that tries to bring a runtime up. */
  predicate IsAttempt(c: Call)
  {
    c == OpenXrInit || c == Win32Init
  }

  // ---------------------------------------------------------------------------
  // Runtime selection.  `flatscreen` is whether the flatscreen runtime is built in.
  // ---------------------------------------------------------------------------

  /** The first attempt: the runtime's own initialiser; nothing for a flatscreen runtime that is not built in. */
  function FirstAttempt(r: Runtime, flatscreen: bool): seq<Call>
  {
    match r
    case RuntimeMixedReality => [OpenXrInit]
    case RuntimeFlatscreen => if flatscreen then [Win32Init] else []
  }

  function FirstResult(r: Runtime, flatscreen: bool, h: Host): bool
  {
    match r
    case RuntimeMixedReality => h.openXrInit
    case RuntimeFlatscreen => flatscreen && h.win32Init
  }

  /** platform_init retries with the flatscreen runtime. */
  predicate FallsBack(r: Runtime, fallback: bool, flatscreen: bool, h: Host)
  {
    flatscreen && !FirstResult(r, flatscreen, h) && fallback && r != RuntimeFlatscreen
  }

  function PlatformInitCalls(r: Runtime, fallback: bool, flatscreen: bool, h: Host): seq<Call>
  {
    FirstAttempt(r, flatscreen) + if FallsBack(r, fallback, flatscreen, h) then [Win32Init] else []
  }

  function PlatformInitResult(r: Runtime, fallback: bool, flatscreen: bool, h: Host): bool
  {
    if FallsBack(r, fallback, flatscreen, h) then h.win32Init else FirstResult(r, flatscreen, h)
  }

  function RuntimeAfterInit(r: Runtime, fallback: bool, flatscreen: bool, h: Host): Runtime
  {
    if FallsBack(r, fallback, flatscreen, h) then RuntimeFlatscreen else r
  }

  /** At most two attempts, both runtime initialisers; the second only on a fallback, and only for the flatscreen runtime. */
  lemma AtMostTwoAttempts(r: Runtime, fallback: bool, flatscreen: bool, h: Host)
    ensures |PlatformInitCalls(r, fallback, flatscreen, h)| <= 2
    ensures forall c :: c in PlatformInitCalls(r, fallback, flatscreen, h) ==> IsAttempt(c)
    ensures |PlatformInitCalls(r, fallback, flatscreen, h)| == 2 <==> FallsBack(r, fallback, flatscreen, h)
    ensures |PlatformInitCalls(r, fallback, flatscreen, h)| == 2 ==> PlatformInitCalls(r, fallback, flatscreen, h)[1] == Win32Init
  {
  }

  /**
   * The fallback happens exactly when the first attempt failed, fallback was asked
   * for, the runtime tried was not flatscreen, and flatscreen is built in. After it
   * the runtime is flatscreen and the outcome is the flatscreen attempt's; without
   * it the runtime is unchanged and the outcome is the first attempt's.
   */
  lemma FallbackPolicy(r: Runtime, fallback: bool, flatscreen: bool, h: Host)
    ensures FallsBack(r, fallback, flatscreen, h) <==>
      !FirstResult(r, flatscreen, h) && fallback && r == RuntimeMixedReality && flatscreen
    ensures FallsBack(r, fallback, flatscreen, h) ==>
      RuntimeAfterInit(r, fallback, flatscreen, h) == RuntimeFlatscreen && PlatformInitResult(r, fallback, flatscreen, h) == h.win32Init
    ensures !FallsBack(r, fallback, flatscreen, h) ==>
      RuntimeAfterInit(r, fallback, flatscreen, h) == r && PlatformInitResult(r, fallback, flatscreen, h) == FirstResult(r, flatscreen, h)
    ensures PlatformInitResult(r, fallback, flatscreen, h) ==> r == RuntimeMixedReality || flatscreen
  {
  }

  /** The last runtime platform_init tried is the runtime it leaves selected. */
  lemma LastAttemptIsFinalRuntime(r: Runtime, fallback: bool, flatscreen: bool, h: Host)
    requires PlatformInitCalls(r, fallback, flatscreen, h) != []
    ensures BackendOf(Last(PlatformInitCalls(r, fallback, flatscreen, h))) == Some(RuntimeAfterInit(r, fallback, flatscreen, h))
  {
  }

  function Last(cs: seq<Call>): Call
    requires cs != []
  {
    cs[|cs| - 1]
  }

  // ---------------------------------------------------------------------------
  // Dispatch to the selected runtime.
  // ---------------------------------------------------------------------------

  function ShutdownCalls(r: Runtime, flatscreen: bool): seq<Call>
  {
    match r
    case RuntimeFlatscreen => if flatscreen then [Win32Shutdown] else []
    case RuntimeMixedReality => [OpenXrShutdown]
  }

  function BeginFrameCalls(r: Runtime, flatscreen: bool): seq<Call>
  {
    (match r
     case RuntimeFlatscreen => if flatscreen then [Win32StepBegin] else []
     case RuntimeMixedReality => [OpenXrStepBegin])
    + [UpdateTimer]
  }

  function EndFrameCalls(r: Runtime, flatscreen: bool): seq<Call>
  {
    match r
    case RuntimeFlatscreen => if flatscreen then [Win32StepEnd] else []
    case RuntimeMixedReality => [OpenXrStepEnd]
  }

  function PresentCalls(r: Runtime, flatscreen: bool): seq<Call>
  {
    match r
    case RuntimeFlatscreen => if flatscreen then [Win32Vsync] else []
    case RuntimeMixedReality => []
  }

  /** Everything the dispatchers invoke belongs to the selected runtime or to none. */
  ghost predicate OnlyTargets(cs: seq<Call>, r: Runtime)
  {
    forall c :: c in cs ==> BackendOf(c) == None || BackendOf(c) == Some(r)
  }

  /** Each dispatcher reaches the selected runtime and no other; shutdown and the frame routines reach it whenever it is built in. */
  lemma DispatchTargetsRuntime(r: Runtime, flatscreen: bool)
    ensures OnlyTargets(ShutdownCalls(r, flatscreen), r)
    ensures OnlyTargets(BeginFrameCalls(r, flatscreen), r)
    ensures OnlyTargets(EndFrameCalls(r, flatscreen), r)
    ensures OnlyTargets(PresentCalls(r, flatscreen), r)
    ensures (r == RuntimeMixedReality || flatscreen) ==>
      && (exists c :: c in ShutdownCalls(r, flatscreen) && BackendOf(c) == Some(r))
      && (exists c :: c in BeginFrameCalls(r, flatscreen) && BackendOf(c) == Some(r))
      && (exists c :: c in EndFrameCalls(r, flatscreen) && BackendOf(c) == Some(r))
  {
    if r == RuntimeMixedReality {
      assert OpenXrShutdown in ShutdownCalls(r, flatscreen);
      assert OpenXrStepBegin in BeginFrameCalls(r, flatscreen);
      assert OpenXrStepEnd in EndFrameCalls(r, flatscreen);
    } else if flatscreen {
      assert Win32Shutdown in ShutdownCalls(r, flatscreen);
      assert Win32StepBegin in BeginFrameCalls(r, flatscreen);
      assert Win32StepEnd in EndFrameCalls(r, flatscreen);
    }
  }

  /** Shutdown after platform_init reaches the runtime of the last attempt platform_init made. */
  lemma ShutdownMatchesLastAttempt(r: Runtime, fallback: bool, flatscreen: bool, h: Host)
    requires PlatformInitCalls(r, fallback, flatscreen, h) != []
    ensures ShutdownCalls(RuntimeAfterInit(r, fallback, flatscreen, h), flatscreen) != []
    ensures BackendOf(ShutdownCalls(RuntimeAfterInit(r, fallback, flatscreen, h), flatscreen)[0])
      == BackendOf(Last(PlatformInitCalls(r, fallback, flatscreen, h)))
  {
    LastAttemptIsFinalRuntime(r, fallback, flatscreen, h);
  }

  /** What the initialisation pass invokes from stereokit.cpp: platform_init, if the pass reaches it. */
  function InitPassCalls(r: Runtime, fallback: bool, flatscreen: bool, h: Host): seq<Call>
  {
    if h.platformInitRuns then PlatformInitCalls(r, fallback, flatscreen, h) else []
  }

  /** What the shutdown pass invokes from stereokit.cpp: platform_shutdown, if the pass reaches it. */
  function ShutdownPassCalls(r: Runtime, flatscreen: bool, h: Host): seq<Call>
  {
    if h.platformShutdownRuns then ShutdownCalls(r, flatscreen) else []
  }

  // ---------------------------------------------------------------------------
  // The application callback and the main-loop step.
  // ---------------------------------------------------------------------------

  /** sk_app_update: the callback runs exactly when one is set, and only that one. */
  function AppUpdateCalls(f: Option<nat>): (cs: seq<Call>)
    ensures |cs| <= 1
    ensures cs != [] <==> f.Some?
    ensures forall c :: c in cs ==> c == AppCallback(f.value)
  {
    match f
    case Some(id) => [AppCallback(id)]
    case None => []
  }

  /** sk_step: one update pass, then an idle only when unfocused. */
  function StepCalls(focused: bool): (cs: seq<Call>)
    ensures multiset(cs)[SystemsUpdate] == 1
    ensures Idle(UnfocusedIdleMs) in cs <==> !focused
    ensures forall c :: c in cs ==> c == SystemsUpdate || c == Idle(UnfocusedIdleMs)
  {
    [SystemsUpdate] + (if focused then [] else [Idle(if focused then 1 else UnfocusedIdleMs)])
  }

  // ---------------------------------------------------------------------------
  // The engine's global state.
  // ---------------------------------------------------------------------------

  class Engine {
    /** The flatscreen runtime is built in. */
    const flatscreen: bool
    var appName: string
    /** sk_app_update_func; a callback is known by a number. */
    var appUpdate: Option<nat>
    var runtime: Runtime
    var runtimeFallback: bool
    var settings: SkSettings
    /** Written by the runtimes, read by the step. */
    var focused: bool
    var run: bool
    /** Set once the graphics device is up. */
    var d3dInitialized: bool
    /** What systems_add has recorded, in order. */
    var registry: seq<System>
    var calls: seq<Call>

    constructor (flatscreen: bool)
      ensures this.flatscreen == flatscreen
      ensures appName == "" && appUpdate == None && runtime == RuntimeFlatscreen && !runtimeFallback
      ensures settings == DefaultSettings && focused && run && !d3dInitialized
      ensures registry == [] && calls == []
    {
      this.flatscreen := flatscreen;
      appName := "";
      appUpdate := None;
      runtime := RuntimeFlatscreen;
      runtimeFallback := false;
      settings := DefaultSettings;
      focused := true;
      run := true;
      d3dInitialized := false;
      registry := [];
      calls := [];
    }

    /** sk_set_settings: ignored once the graphics device is up, otherwise replaces the settings wholesale. */
    method SetSettings(s: SkSettings)
      modifies this`settings
      ensures settings == if old(d3dInitialized) then old(settings) else s
      ensures d3dInitialized == old(d3dInitialized) && runtime == old(runtime) && calls == old(calls)
      ensures registry == old(registry) && appUpdate == old(appUpdate)
      ensures focused == old(focused) && run == old(run) && appName == old(appName) && runtimeFallback == old(runtimeFallback)
    {
      if d3dInitialized {
        return;
      }
      settings := s;
    }

    /** The older platform_init: the selected runtime, then possibly the flatscreen runtime. */
    method PlatformInit(h: Host) returns (result: bool)
      modifies this`calls, this`runtime
      ensures calls == old(calls) + PlatformInitCalls(old(runtime), runtimeFallback, flatscreen, h)
      ensures runtime == RuntimeAfterInit(old(runtime), runtimeFallback, flatscreen, h)
      ensures result == PlatformInitResult(old(runtime), runtimeFallback, flatscreen, h)
      ensures runtimeFallback == old(runtimeFallback) && registry == old(registry) && settings == old(settings)
      ensures appName == old(appName)
    {
      if runtime == RuntimeMixedReality {
        calls := calls + [OpenXrInit];
        result := h.openXrInit;
      } else if flatscreen {
        calls := calls + [Win32Init];
        result := h.win32Init;
      } else {
        result := false;
      }

      if flatscreen && !result && runtimeFallback && runtime != RuntimeFlatscreen {
        runtime := RuntimeFlatscreen;
        calls := calls + [Win32Init];
        result := h.win32Init;
      }
    }

    /** The older platform_shutdown. */
    method PlatformShutdown()
      modifies this`calls
      ensures calls == old(calls) + ShutdownCalls(runtime, flatscreen)
      ensures runtime == old(runtime) && registry == old(registry)
    {
      match runtime {
        case RuntimeFlatscreen =>
          if flatscreen {
            calls := calls + [Win32Shutdown];
          }
        case RuntimeMixedReality =>
          calls := calls + [OpenXrShutdown];
      }
    }

    /** platform_begin_frame */
    method BeginFrame()
      modifies this`calls
      ensures calls == old(calls) + BeginFrameCalls(runtime, flatscreen)
      ensures runtime == old(runtime) && registry == old(registry)
    {
      match runtime {
        case RuntimeFlatscreen =>
          if flatscreen {
            calls := calls + [Win32StepBegin];
          }
        case RuntimeMixedReality =>
          calls := calls + [OpenXrStepBegin];
      }
      calls := calls + [UpdateTimer];
    }

    /** platform_end_frame */
    method EndFrame()
      modifies this`calls
      ensures calls == old(calls) + EndFrameCalls(runtime, flatscreen)
      ensures runtime == old(runtime) && registry == old(registry)
    {
      match runtime {
        case RuntimeFlatscreen =>
          if flatscreen {
            calls := calls + [Win32StepEnd];
          }
        case RuntimeMixedReality =>
          calls := calls + [OpenXrStepEnd];
      }
    }

    /** platform_present */
    method Present()
      modifies this`calls
      ensures calls == old(calls) + PresentCalls(runtime, flatscreen)
      ensures runtime == old(runtime) && registry == old(registry)
    {
      match runtime {
        case RuntimeFlatscreen =>
          if flatscreen {
            calls := calls + [Win32Vsync];
          }
        case RuntimeMixedReality =>
      }
    }

    /** sk_app_update */
    method AppUpdate()
      modifies this`calls
      ensures calls == old(calls) + AppUpdateCalls(appUpdate)
      ensures appUpdate == old(appUpdate) && runtime == old(runtime) && registry == old(registry)
    {
      if appUpdate != None {
        calls := calls + [AppCallback(appUpdate.value)];
      }
    }

    /** The systems_add calls of sk_init for Graphics, Defaults, Platform, Physics, Renderer and Input; each appends one registration. */
    method RegisterStartupSystems()
      modifies this`registry
      ensures registry == old(registry) + StartupRegistrations()
      ensures runtime == old(runtime) && runtimeFallback == old(runtimeFallback) && appName == old(appName) && calls == old(calls)
    {
      registry := registry + [System("Graphics", [], [], true, true, true)];
      registry := registry + [System("Defaults", ["Graphics"], [], true, false, true)];
      registry := registry + [System("Platform", ["Graphics", "Defaults"], [], true, false, true)];
      registry := registry + [System("Physics", ["Defaults"], ["Input", "FrameBegin"], true, true, true)];
      registry := registry + [System("Renderer", ["Graphics", "Defaults"], ["Physics", "FrameBegin"], true, true, true)];
      registry := registry + [System("Input", ["Platform", "Defaults"], ["FrameBegin"], true, true, true)];
    }

    /** The systems_add calls of sk_init for Text, App, FrameBegin, FrameEnd and FramePresent. */
    method RegisterFrameSystems()
      modifies this`registry
      ensures registry == old(registry) + FrameRegistrations()
      ensures runtime == old(runtime) && runtimeFallback == old(runtimeFallback) && appName == old(appName) && calls == old(calls)
    {
      registry := registry + [System("Text", ["Defaults"], ["FrameBegin", "App"], false, true, true)];
      registry := registry + [System("App", [], ["Input", "Defaults", "FrameBegin", "Graphics", "Physics", "Renderer"], false, true, false)];
      registry := registry + [System("FrameBegin", [], [], false, true, false)];
      registry := registry + [System("FrameEnd", [], ["App", "Text"], false, true, false)];
      registry := registry + [System("FramePresent", [], ["FrameEnd"], false, true, false)];
    }

    /**
     * sk_init: records the selection, registers the eleven subsystems, then initialises
     * them.  The initialisation pass belongs to the scheduler; when it reaches the
     * Platform registration it runs platform_init, the one initialiser that changes
     * the runtime; the Graphics initialiser it runs is what raises the graphics flag.
     */
    method Init(name: string, runtimePreference: Runtime, fallback: bool, h: Host) returns (ok: bool)
      modifies this`runtime, this`runtimeFallback, this`appName, this`registry, this`calls, this`d3dInitialized
      ensures runtimeFallback == fallback && appName == name
      ensures d3dInitialized == (old(d3dInitialized) || h.graphicsUp)
      ensures registry == old(registry) + SkInitTable()
      ensures calls == old(calls) + [SystemsInitialize] + InitPassCalls(runtimePreference, fallback, flatscreen, h)
      ensures runtime == if h.platformInitRuns then RuntimeAfterInit(runtimePreference, fallback, flatscreen, h) else runtimePreference
      ensures runtime == runtimePreference
        || (fallback && flatscreen && runtimePreference == RuntimeMixedReality && runtime == RuntimeFlatscreen)
      ensures ok == h.systemsInitialize
    {
      runtime := runtimePreference;
      runtimeFallback := fallback;
      appName := name;

      RegisterStartupSystems();
      RegisterFrameSystems();
      assert registry == old(registry) + (StartupRegistrations() + FrameRegistrations());

      calls := calls + [SystemsInitialize];
      assert runtime == runtimePreference;
      if h.platformInitRuns {
        var _ := PlatformInit(h);
      }
      FallbackPolicy(runtimePreference, fallback, flatscreen, h);
      if h.graphicsUp {
        d3dInitialized := true;
      }
      ok := h.systemsInitialize;
    }

    /** sk_shutdown: the scheduler's shutdown pass, which runs platform_shutdown when it reaches the Platform registration. */
    method Shutdown(h: Host)
      modifies this`calls
      ensures calls == old(calls) + [SystemsShutdown] + ShutdownPassCalls(runtime, flatscreen, h)
      ensures runtime == old(runtime) && registry == old(registry)
    {
      calls := calls + [SystemsShutdown];
      if h.platformShutdownRuns {
        PlatformShutdown();
      }
    }

    /**
     * sk_step: stores the callback and runs one update pass, during which the runtimes
     * and the application may change the focus and run flags; then idles when the pass
     * left the application unfocused, and reports the run flag the pass left.
     */
    method Step(f: Option<nat>, h: Host) returns (keepRunning: bool)
      modifies this`appUpdate, this`calls, this`focused, this`run
      ensures appUpdate == f
      ensures focused == h.focusedAfterUpdate && run == h.runAfterUpdate
      ensures calls == old(calls) + StepCalls(focused)
      ensures keepRunning == run
      ensures runtime == old(runtime) && registry == old(registry)
    {
      appUpdate := f;
      calls := calls + [SystemsUpdate];
      focused := h.focusedAfterUpdate;
      run := h.runAfterUpdate;
      if !focused {
        calls := calls + [Idle(if focused then 1 else UnfocusedIdleMs)];
      }
      return run;
    }

    /** sk_active_runtime */
    method ActiveRuntime() returns (r: Runtime)
      ensures r == runtime
    {
      return runtime;
    }
  }
}
