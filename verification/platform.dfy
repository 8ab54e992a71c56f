/**
 * The display-mode control of the platform layer: which display type is running
 * (none, stereo through OpenXR, or a flatscreen window with a simulated or empty
 * XR backend), how one is started, stopped and switched, how the platform comes up
 * with its flatscreen fallback, and how each frame is dispatched.
 *
 * Every routine of the operating-system layer, of OpenXR, of the GPU library, of
 * the simulator and "none" XR backends and of the platform utilities is a foreign
 * call: the model records it, in order, in `calls`, and takes whatever it answers
 * from a `Host` value (one answer per routine; each is asked at most once per
 * top-level operation).
 */
module Platform {

  /** The display types the platform layer runs (display_type_). */
  datatype DisplayType = NoDisplay | Stereo | Flatscreen

  /** The legacy display preference found in the settings (display_mode_). */
  datatype DisplayMode = ModeNone | ModeMixedReality | ModeFlatscreen

  /** The settings the platform layer reads. */
  datatype Settings = Settings(
    displayPreference: DisplayMode,
    noFlatscreenFallback: bool,
    disableFlatscreenMrSim: bool)

  /** Build configuration (whether OpenXR is compiled in) and settings. */
  datatype Env = Env(openXr: bool, settings: Settings)

  /** Foreign routines the platform layer invokes; OS-specific ones are named after their role. */
  datatype Call =
    | DeviceDataInit | OsInit | OpenXrGetLuid | SkgSetLogCallback | SkgInit | SkgAdapterName
    | OsStartPreXr | OpenXrInit | OsStartPostXr | OsStartFlat | NoneInit | SimulatorInit
    | OpenXrShutdown | NoneShutdown | SimulatorShutdown | OsStopFlat
    | OsStepBeginXr | OpenXrStepBegin | InputStep | OsStepBeginFlat | NoneStepBegin | SimulatorStepBegin
    | UtilsUpdate | OpenXrStepEnd | NoneStepEnd | SimulatorStepEnd | OsStepEndFlat
    | UtilsInit | UtilsShutdown | SkgShutdown | OsShutdown | DeviceDataFree
    | FailReason(code: int) | ClearFailReason

  /** What the foreign routines answer: success flags, and sk_gpu's integer status. */
  datatype Host = Host(
    osInit: bool,
    skgInit: int,
    preXr: bool,
    openXrInit: bool,
    postXr: bool,
    startFlat: bool,
    utilsInit: bool)

  // ---------------------------------------------------------------------------
  // Conversion from the legacy display preference.
  // ---------------------------------------------------------------------------

  function ModeOfType(t: DisplayType): DisplayMode
  {
    match t
    case NoDisplay => ModeNone
    case Stereo => ModeMixedReality
    case Flatscreen => ModeFlatscreen
  }

  /** The conversion is total and loses nothing: ModeOfType undoes it. */
  function TypeOfMode(m: DisplayMode): (t: DisplayType)
    ensures ModeOfType(t) == m
  {
    match m
    case ModeFlatscreen => Flatscreen
    case ModeMixedReality => Stereo
    case ModeNone => NoDisplay
  }

  lemma TypeOfModeIsBijective(t: DisplayType, m: DisplayMode)
    ensures TypeOfMode(ModeOfType(t)) == t
    ensures TypeOfMode(m) == t <==> ModeOfType(t) == m
  {
  }

  // ---------------------------------------------------------------------------
  // Backends: what a display type owns while it runs.
  // ---------------------------------------------------------------------------

  /** The resources a display type brings up: the OpenXR session, the flat window, and one of the two flatscreen XR backends. */
  datatype Backend = XrRuntime | FlatWindow | MrSimulator | NoneXr

  /** The XR backend a flatscreen display pairs with its window. */
  function FlatXrBackend(env: Env): Backend
  {
    if env.settings.disableFlatscreenMrSim then NoneXr else MrSimulator
  }

  function ModeBackends(t: DisplayType, env: Env): set<Backend>
  {
    match t
    case NoDisplay => {}
    case Stereo => if env.openXr then {XrRuntime} else {}
    case Flatscreen => {FlatWindow, FlatXrBackend(env)}
  }

  function Opens(c: Call): set<Backend>
  {
    match c
    case OpenXrInit => {XrRuntime}
    case OsStartFlat => {FlatWindow}
    case SimulatorInit => {MrSimulator}
    case NoneInit => {NoneXr}
    case _ => {}
  }

  function Closes(c: Call): set<Backend>
  {
    match c
    case OpenXrShutdown => {XrRuntime}
    case OsStopFlat => {FlatWindow}
    case SimulatorShutdown => {MrSimulator}
    case NoneShutdown => {NoneXr}
    case _ => {}
  }

  /** The backends a frame-step call drives. */
  function Drives(c: Call): set<Backend>
  {
    match c
    case OpenXrStepBegin => {XrRuntime}
    case OpenXrStepEnd => {XrRuntime}
    case OsStepBeginFlat => {FlatWindow}
    case OsStepEndFlat => {FlatWindow}
    case SimulatorStepBegin => {MrSimulator}
    case SimulatorStepEnd => {MrSimulator}
    case NoneStepBegin => {NoneXr}
    case NoneStepEnd => {NoneXr}
    case _ => {}
  }

  predicate Neutral(c: Call)
  {
    Opens(c) == {} && Closes(c) == {}
  }

  /** The backends left running after `cs`, starting from `live`. */
  function LiveAfter(live: set<Backend>, cs: seq<Call>): set<Backend>
    decreases |cs|
  {
    if cs == [] then live else LiveAfter(live - Closes(cs[0]) + Opens(cs[0]), cs[1..])
  }

  function Live(cs: seq<Call>): set<Backend>
  {
    LiveAfter({}, cs)
  }

  /** The backends driven by any call of `cs`. */
  function DrivenBy(cs: seq<Call>): set<Backend>
  {
    if cs == [] then {} else Drives(cs[0]) + DrivenBy(cs[1..])
  }

  lemma {:induction false} LiveAfterAppend(live: set<Backend>, a: seq<Call>, b: seq<Call>)
    ensures LiveAfter(live, a + b) == LiveAfter(LiveAfter(live, a), b)
    decreases |a|
  {
    if a != [] {
      assert a + b != [] && (a + b)[0] == a[0];
      assert (a + b)[1..] == a[1..] + b;
      LiveAfterAppend(live - Closes(a[0]) + Opens(a[0]), a[1..], b);
    } else {
      assert a + b == b;
    }
  }

  lemma LiveAfterOne(live: set<Backend>, c: Call)
    ensures LiveAfter(live, [c]) == live - Closes(c) + Opens(c)
  {
    assert [c][1..] == [];
  }

  /** Calls that neither start nor stop a backend leave the running set alone. */
  lemma {:induction false} NeutralCallsKeepLive(live: set<Backend>, cs: seq<Call>)
    requires forall c :: c in cs ==> Neutral(c)
    ensures LiveAfter(live, cs) == live
    decreases |cs|
  {
    if cs != [] {
      assert Neutral(cs[0]) by {
        assert cs[0] in cs;
      }
      assert live - Closes(cs[0]) + Opens(cs[0]) == live;
      assert forall c :: c in cs[1..] ==> c in cs;
      NeutralCallsKeepLive(live, cs[1..]);
    }
  }

  /** Proof helper: regrouping a concatenation of traces. */
  lemma Associate(a: seq<Call>, b: seq<Call>, c: seq<Call>)
    ensures a + b + c == a + (b + c)
  {
  }

  /** Proof helper: two single appends as one. */
  lemma PushTwo(a: seq<Call>, x: Call, y: Call, c: seq<Call>)
    ensures a + [x] + [y] + c == a + ([x, y] + c)
  {
  }

  lemma AppendNeutral(cs: seq<Call>, extra: seq<Call>)
    requires forall c :: c in extra ==> Neutral(c)
    ensures Live(cs + extra) == Live(cs)
  {
    LiveAfterAppend({}, cs, extra);
    NeutralCallsKeepLive(Live(cs), extra);
  }

  lemma {:induction false} DrivenByAppend(a: seq<Call>, b: seq<Call>)
    ensures DrivenBy(a + b) == DrivenBy(a) + DrivenBy(b)
    decreases |a|
  {
    if a != [] {
      assert a + b != [] && (a + b)[0] == a[0];
      assert (a + b)[1..] == a[1..] + b;
      DrivenByAppend(a[1..], b);
    } else {
      assert a + b == b;
    }
  }

  lemma DrivenByOne(c: Call)
    ensures DrivenBy([c]) == Drives(c)
  {
    assert [c][1..] == [];
  }

  // ---------------------------------------------------------------------------
  // Starting and stopping a display type.
  // ---------------------------------------------------------------------------

  function FlatXrInit(env: Env): Call
  {
    if env.settings.disableFlatscreenMrSim then NoneInit else SimulatorInit
  }

  function FlatXrShutdown(env: Env): Call
  {
    if env.settings.disableFlatscreenMrSim then NoneShutdown else SimulatorShutdown
  }

  /** Whether the OpenXR step of a stereo start lets the chain continue. */
  predicate XrStepOk(env: Env, h: Host)
  {
    !env.openXr || h.openXrInit
  }

  /** What starting display type `m` invokes. */
  function StartCalls(m: DisplayType, env: Env, h: Host): seq<Call>
  {
    match m
    case NoDisplay => []
    case Stereo =>
      [OsStartPreXr] +
      (if !h.preXr then []
       else (if env.openXr then [OpenXrInit] else []) + (if XrStepOk(env, h) then [OsStartPostXr] else []))
    case Flatscreen => [OsStartFlat, FlatXrInit(env)]
  }

  /** What starting display type `m` reports. */
  function StartResult(m: DisplayType, env: Env, h: Host): bool
  {
    match m
    case NoDisplay => true
    case Stereo => if !h.preXr then false else if !XrStepOk(env, h) then false else h.postXr
    case Flatscreen => h.startFlat
  }

  /** What stopping display type `t` invokes. */
  function StopCalls(t: DisplayType, env: Env): seq<Call>
  {
    match t
    case NoDisplay => []
    case Stereo => if env.openXr then [OpenXrShutdown] else []
    case Flatscreen => [FlatXrShutdown(env), OsStopFlat]
  }

  /** Switching from `t` to `m`: nothing when they agree, otherwise stop `t` then start `m`. */
  function SetModeCalls(t: DisplayType, m: DisplayType, env: Env, h: Host): seq<Call>
  {
    if t == m then [] else StopCalls(t, env) + StartCalls(m, env, h)
  }

  function SetModeResult(t: DisplayType, m: DisplayType, env: Env, h: Host): bool
  {
    t == m || StartResult(m, env, h)
  }

  /** Stopping takes down exactly the backends the display type owns. */
  lemma StopTearsDown(live: set<Backend>, t: DisplayType, env: Env)
    ensures LiveAfter(live, StopCalls(t, env)) == live - ModeBackends(t, env)
  {
    match t
    case NoDisplay =>
    case Stereo =>
      if env.openXr {
        LiveAfterOne(live, OpenXrShutdown);
      }
    case Flatscreen =>
      var x := FlatXrShutdown(env);
      assert StopCalls(t, env) == [x] + [OsStopFlat];
      LiveAfterAppend(live, [x], [OsStopFlat]);
      LiveAfterOne(live, x);
      LiveAfterOne(live - Closes(x), OsStopFlat);
  }

  /** Starting brings up only backends the display type owns, and all of them when it succeeds. */
  lemma StartBringsUp(live: set<Backend>, m: DisplayType, env: Env, h: Host)
    ensures LiveAfter(live, StartCalls(m, env, h)) <= live + ModeBackends(m, env)
    ensures StartResult(m, env, h) ==> LiveAfter(live, StartCalls(m, env, h)) == live + ModeBackends(m, env)
  {
    match m
    case NoDisplay =>
    case Flatscreen =>
      var x := FlatXrInit(env);
      assert StartCalls(m, env, h) == [OsStartFlat] + [x];
      LiveAfterAppend(live, [OsStartFlat], [x]);
      LiveAfterOne(live, OsStartFlat);
      LiveAfterOne(live + {FlatWindow}, x);
    case Stereo =>
      var xr: seq<Call> := if h.preXr && env.openXr then [OpenXrInit] else [];
      var post: seq<Call> := if h.preXr && XrStepOk(env, h) then [OsStartPostXr] else [];
      assert StartCalls(m, env, h) == ([OsStartPreXr] + xr) + post;
      LiveAfterAppend(live, [OsStartPreXr] + xr, post);
      LiveAfterAppend(live, [OsStartPreXr], xr);
      NeutralCallsKeepLive(live, [OsStartPreXr]);
      NeutralCallsKeepLive(LiveAfter(live, [OsStartPreXr] + xr), post);
      if xr != [] {
        LiveAfterOne(live, OpenXrInit);
      }
  }

  /** Stopping a display type right after starting it leaves nothing running, whether or not the start succeeded. */
  lemma StartThenStopLeavesNothing(m: DisplayType, env: Env, h: Host)
    ensures Live(StartCalls(m, env, h) + StopCalls(m, env)) == {}
  {
    StartBringsUp({}, m, env, h);
    LiveAfterAppend({}, StartCalls(m, env, h), StopCalls(m, env));
    StopTearsDown(Live(StartCalls(m, env, h)), m, env);
  }

  /** A stereo start is a short-circuit chain: each step runs only if every earlier one succeeded, and the result is their conjunction. */
  lemma StereoStartIsChain(env: Env, h: Host)
    ensures OsStartPreXr in StartCalls(Stereo, env, h)
    ensures OpenXrInit in StartCalls(Stereo, env, h) <==> env.openXr && h.preXr
    ensures OsStartPostXr in StartCalls(Stereo, env, h) <==> h.preXr && (!env.openXr || h.openXrInit)
    ensures StartResult(Stereo, env, h) <==> h.preXr && (!env.openXr || h.openXrInit) && h.postXr
  {
  }

  /** A flatscreen start reports only the window's result and brings up exactly one of the two XR backends. */
  lemma FlatscreenStartPicksOneBackend(env: Env, h: Host)
    ensures StartResult(Flatscreen, env, h) == h.startFlat
    ensures NoneInit in StartCalls(Flatscreen, env, h) <==> env.settings.disableFlatscreenMrSim
    ensures SimulatorInit in StartCalls(Flatscreen, env, h) <==> !env.settings.disableFlatscreenMrSim
  {
  }

  /** Switching to no display always succeeds. */
  lemma NoDisplayAlwaysSucceeds(t: DisplayType, env: Env, h: Host)
    ensures SetModeResult(t, NoDisplay, env, h)
    ensures forall c :: c in SetModeCalls(t, NoDisplay, env, h) ==> Opens(c) == {}
  {
  }

  /** In a mode switch every stopping call comes before every starting call. */
  lemma StopsPrecedeStarts(t: DisplayType, m: DisplayType, env: Env, h: Host)
    ensures forall i, j :: 0 <= i < j < |SetModeCalls(t, m, env, h)| && Closes(SetModeCalls(t, m, env, h)[j]) != {} ==>
      Opens(SetModeCalls(t, m, env, h)[i]) == {}
  {
    var cs := SetModeCalls(t, m, env, h);
    if t != m {
      var stop, start := StopCalls(t, env), StartCalls(m, env, h);
      assert forall c :: c in stop ==> Opens(c) == {};
      assert forall c :: c in start ==> Closes(c) == {};
      forall i, j | 0 <= i < j < |cs| && Closes(cs[j]) != {} ensures Opens(cs[i]) == {} {
        assert j < |stop|;
        assert cs[i] == stop[i];
      }
    }
  }

  // ---------------------------------------------------------------------------
  // Frame dispatch and shutdown.
  // ---------------------------------------------------------------------------

  function FlatXrStepBegin(env: Env): Call
  {
    if env.settings.disableFlatscreenMrSim then NoneStepBegin else SimulatorStepBegin
  }

  function FlatXrStepEnd(env: Env): Call
  {
    if env.settings.disableFlatscreenMrSim then NoneStepEnd else SimulatorStepEnd
  }

  /** The display-specific part of a frame's start. */
  function ModeStepBeginCalls(t: DisplayType, env: Env): seq<Call>
  {
    match t
    case NoDisplay => []
    case Stereo => [OsStepBeginXr] + (if env.openXr then [OpenXrStepBegin] else []) + [InputStep]
    case Flatscreen => [OsStepBeginFlat, InputStep, FlatXrStepBegin(env)]
  }

  function StepBeginCalls(t: DisplayType, env: Env): seq<Call>
  {
    ModeStepBeginCalls(t, env) + [UtilsUpdate]
  }

  function StepEndCalls(t: DisplayType, env: Env): seq<Call>
  {
    match t
    case NoDisplay => []
    case Stereo => if env.openXr then [OpenXrStepEnd] else []
    case Flatscreen => [FlatXrStepEnd(env), OsStepEndFlat]
  }

  lemma StepCallsAreNeutral(t: DisplayType, env: Env)
    ensures forall c :: c in StepBeginCalls(t, env) ==> Neutral(c)
    ensures forall c :: c in StepEndCalls(t, env) ==> Neutral(c)
  {
  }

  /** Frame dispatch drives exactly the backends the current display type owns. */
  lemma StepDispatchMatchesMode(t: DisplayType, env: Env)
    ensures DrivenBy(StepBeginCalls(t, env)) == ModeBackends(t, env)
    ensures DrivenBy(StepEndCalls(t, env)) == ModeBackends(t, env)
  {
    match t
    case NoDisplay =>
      DrivenByOne(UtilsUpdate);
      assert StepBeginCalls(t, env) == [UtilsUpdate];
    case Stereo =>
      StereoStepDrives(env);
    case Flatscreen =>
      FlatStepDrives(env);
  }

  lemma StereoStepDrives(env: Env)
    ensures DrivenBy(StepBeginCalls(Stereo, env)) == ModeBackends(Stereo, env)
    ensures DrivenBy(StepEndCalls(Stereo, env)) == ModeBackends(Stereo, env)
  {
    var x: seq<Call> := if env.openXr then [OpenXrStepBegin] else [];
    var rest := [InputStep] + [UtilsUpdate];
    assert StepBeginCalls(Stereo, env) == [OsStepBeginXr] + (x + rest);
    DrivenByAppend([OsStepBeginXr], x + rest);
    DrivenByAppend(x, rest);
    DrivenByAppend([InputStep], [UtilsUpdate]);
    DrivenByOne(OsStepBeginXr);
    DrivenByOne(InputStep);
    DrivenByOne(UtilsUpdate);
    if env.openXr {
      DrivenByOne(OpenXrStepBegin);
      DrivenByOne(OpenXrStepEnd);
    }
  }

  lemma FlatStepDrives(env: Env)
    ensures DrivenBy(StepBeginCalls(Flatscreen, env)) == ModeBackends(Flatscreen, env)
    ensures DrivenBy(StepEndCalls(Flatscreen, env)) == ModeBackends(Flatscreen, env)
  {
    FlatStepBeginDrives(env);
    var y := FlatXrStepEnd(env);
    assert StepEndCalls(Flatscreen, env) == [y] + [OsStepEndFlat];
    DrivenByAppend([y], [OsStepEndFlat]);
    DrivenByOne(y);
    DrivenByOne(OsStepEndFlat);
  }

  lemma FlatStepBeginDrives(env: Env)
    ensures DrivenBy(StepBeginCalls(Flatscreen, env)) == {FlatWindow, FlatXrBackend(env)}
  {
    var x := FlatXrStepBegin(env);
    var rest := [x] + [UtilsUpdate];
    assert StepBeginCalls(Flatscreen, env) == [OsStepBeginFlat] + ([InputStep] + rest);
    DrivenByAppend([OsStepBeginFlat], [InputStep] + rest);
    DrivenByAppend([InputStep], rest);
    DrivenByAppend([x], [UtilsUpdate]);
    DrivenByOne(OsStepBeginFlat);
    DrivenByOne(InputStep);
    DrivenByOne(x);
    DrivenByOne(UtilsUpdate);
  }

  function ShutdownCalls(t: DisplayType, env: Env): seq<Call>
  {
    [UtilsShutdown] + StopCalls(t, env) + [SkgShutdown, OsShutdown, DeviceDataFree]
  }

  // ---------------------------------------------------------------------------
  // Platform start-up.
  // ---------------------------------------------------------------------------

  /** The flatscreen retry is allowed: the settings permit it and flatscreen was not what just failed. */
  predicate FallbackAllowed(env: Env, t: DisplayType)
  {
    !env.settings.noFlatscreenFallback && t != Flatscreen
  }

  function Requested(env: Env): DisplayType
  {
    TypeOfMode(env.settings.displayPreference)
  }

  function LuidCalls(env: Env): seq<Call>
  {
    if env.openXr && env.settings.displayPreference == ModeMixedReality then [OpenXrGetLuid] else []
  }

  /** The display step of start-up: set the requested type; if that fails and a fallback is allowed, clear the fail reason and set flatscreen. */
  function DisplayStartCalls(t0: DisplayType, env: Env, h: Host): seq<Call>
  {
    var t := Requested(env);
    SetModeCalls(t0, t, env, h) +
    (if Retries(t0, env, h) then [ClearFailReason] + SetModeCalls(t, Flatscreen, env, h) else [])
  }

  function DisplayStartResult(t0: DisplayType, env: Env, h: Host): bool
  {
    var t := Requested(env);
    SetModeResult(t0, t, env, h) || (FallbackAllowed(env, t) && SetModeResult(t, Flatscreen, env, h))
  }

  /** The requested display type failed to start and a flatscreen retry is allowed. */
  predicate Retries(t0: DisplayType, env: Env, h: Host)
  {
    !SetModeResult(t0, Requested(env), env, h) && FallbackAllowed(env, Requested(env))
  }

  /** The graphics step of start-up: the OpenXR adapter query when stereo is preferred, the sk_gpu log hook, sk_gpu itself, then its adapter name or the failure. */
  function GraphicsCalls(env: Env, h: Host): seq<Call>
  {
    LuidCalls(env) + [SkgSetLogCallback, SkgInit] + (if h.skgInit <= 0 then [FailReason(95)] else [SkgAdapterName])
  }

  /** The display step and, if it succeeded, the start of the platform utilities. */
  function DisplayAndUtilsCalls(t0: DisplayType, env: Env, h: Host): seq<Call>
  {
    DisplayStartCalls(t0, env, h) + (if DisplayStartResult(t0, env, h) then [UtilsInit] else [])
  }

  /** What start-up invokes after the graphics step: nothing if it failed. */
  function AfterGraphicsCalls(t0: DisplayType, env: Env, h: Host): seq<Call>
  {
    if h.skgInit <= 0 then [] else DisplayAndUtilsCalls(t0, env, h)
  }

  /** What start-up invokes once the OS layer is up. */
  function AfterOsCalls(t0: DisplayType, env: Env, h: Host): seq<Call>
  {
    GraphicsCalls(env, h) + AfterGraphicsCalls(t0, env, h)
  }

  /** Everything platform start-up invokes, from display type `t0`. */
  function InitCalls(t0: DisplayType, env: Env, h: Host): seq<Call>
  {
    [DeviceDataInit, OsInit] +
    (if !h.osInit then [FailReason(80)] else AfterOsCalls(t0, env, h))
  }

  /** Start-up took the flatscreen fallback. */
  predicate FellBack(t0: DisplayType, env: Env, h: Host)
  {
    h.osInit && h.skgInit > 0 && Retries(t0, env, h)
  }

  function InitResult(t0: DisplayType, env: Env, h: Host): bool
  {
    h.osInit && h.skgInit > 0 && DisplayStartResult(t0, env, h) && h.utilsInit
  }

  function InitDisplayType(t0: DisplayType, env: Env, h: Host): DisplayType
  {
    if !h.osInit || h.skgInit <= 0 then t0
    else if Retries(t0, env, h) then Flatscreen
    else Requested(env)
  }

  /** A routine that only a display start invokes: the OS display hooks, OpenXR's initialiser and the two flatscreen XR backends' initialisers. */
  predicate StartsDisplay(c: Call)
  {
    c == OsStartPreXr || c == OpenXrInit || c == OsStartPostXr || c == OsStartFlat || c == NoneInit || c == SimulatorInit
  }

  /** Every routine a display start invokes is a display-start routine. */
  lemma StartCallsStartDisplay(m: DisplayType, env: Env, h: Host)
    ensures forall c :: c in StartCalls(m, env, h) ==> StartsDisplay(c)
  {
  }

  /** If the OS layer fails, start-up reports failure before touching the GPU or any display. */
  lemma InitStopsAtOsFailure(t0: DisplayType, env: Env, h: Host)
    requires !h.osInit
    ensures !InitResult(t0, env, h) && InitDisplayType(t0, env, h) == t0
    ensures SkgInit !in InitCalls(t0, env, h)
    ensures forall c :: c in InitCalls(t0, env, h) ==> Neutral(c) && !StartsDisplay(c)
    ensures InitCalls(t0, env, h)[|InitCalls(t0, env, h)| - 1] == FailReason(80)
  {
  }

  /** If sk_gpu reports a non-positive status, start-up fails without setting any display mode. */
  lemma InitStopsAtGpuFailure(t0: DisplayType, env: Env, h: Host)
    requires h.osInit && h.skgInit <= 0
    ensures !InitResult(t0, env, h) && InitDisplayType(t0, env, h) == t0
    ensures forall c :: c in InitCalls(t0, env, h) ==> Neutral(c) && !StartsDisplay(c)
    ensures InitCalls(t0, env, h)[|InitCalls(t0, env, h)| - 1] == FailReason(95)
  {
    var g := GraphicsCalls(env, h);
    assert g == LuidCalls(env) + [SkgSetLogCallback, SkgInit, FailReason(95)];
    assert AfterOsCalls(t0, env, h) == g + [] == g;
    assert InitCalls(t0, env, h) == [DeviceDataInit, OsInit] + g;
  }

  /**
   * The flatscreen retry happens exactly when the first attempt failed, the settings
   * allow a fallback and flatscreen was not the display that failed; the fail reason
   * is cleared first, and the outcome is the retry's.
   */
  lemma InitFallbackPolicy(t0: DisplayType, env: Env, h: Host)
    ensures ClearFailReason in InitCalls(t0, env, h) <==> FellBack(t0, env, h)
    ensures FellBack(t0, env, h) ==>
      && Requested(env) == Stereo
      && InitResult(t0, env, h) == (h.startFlat && h.utilsInit)
      && InitDisplayType(t0, env, h) == Flatscreen
  {
    if h.osInit && h.skgInit > 0 {
      var t := Requested(env);
      NoClearInSetMode(t0, t, env, h);
      assert ClearFailReason !in [DeviceDataInit, OsInit] + GraphicsCalls(env, h);
      assert ClearFailReason in DisplayStartCalls(t0, env, h) <==> Retries(t0, env, h);
      assert ClearFailReason in AfterGraphicsCalls(t0, env, h) <==> Retries(t0, env, h);
    }
  }

  lemma NoClearInSetMode(t: DisplayType, m: DisplayType, env: Env, h: Host)
    ensures ClearFailReason !in SetModeCalls(t, m, env, h)
  {
  }

  /** A successful start-up runs the requested display type, or flatscreen after a fallback. */
  lemma InitSuccessMode(t0: DisplayType, env: Env, h: Host)
    requires InitResult(t0, env, h)
    ensures InitDisplayType(t0, env, h) == Requested(env)
      || (FellBack(t0, env, h) && InitDisplayType(t0, env, h) == Flatscreen)
    ensures UtilsInit in InitCalls(t0, env, h)
  {
  }

  // ---------------------------------------------------------------------------
  // The device state and the platform routines that drive it.
  // ---------------------------------------------------------------------------

  class Device {
    const env: Env
    /** device_data.display_type */
    var displayType: DisplayType
    /** Every foreign routine invoked so far, in order. */
    var calls: seq<Call>

    /** The display type accounts for every backend left running. */
    ghost predicate Valid()
      reads this
    {
      Live(calls) <= ModeBackends(displayType, env)
    }

    constructor (env: Env)
      ensures this.env == env && displayType == NoDisplay && calls == [] && Valid()
    {
      this.env := env;
      displayType := NoDisplay;
      calls := [];
    }

    /** Invokes a foreign routine that neither starts nor stops a backend. */
    method Record(c: Call)
      requires Valid() && Neutral(c)
      modifies this
      ensures Valid() && displayType == old(displayType) && calls == old(calls) + [c]
    {
      AppendNeutral(calls, [c]);
      calls := calls + [c];
    }

    /** platform_stop_mode */
    method StopMode()
      requires Valid()
      modifies this
      ensures Valid() && displayType == NoDisplay && Live(calls) == {}
      ensures calls == old(calls) + StopCalls(old(displayType), env)
    {
      match displayType {
        case NoDisplay =>
        case Stereo =>
          if env.openXr {
            calls := calls + [OpenXrShutdown];
          }
        case Flatscreen =>
          if env.settings.disableFlatscreenMrSim {
            calls := calls + [NoneShutdown];
          } else {
            calls := calls + [SimulatorShutdown];
          }
          calls := calls + [OsStopFlat];
      }
      assert calls == old(calls) + StopCalls(old(displayType), env);
      LiveAfterAppend({}, old(calls), StopCalls(old(displayType), env));
      StopTearsDown(Live(old(calls)), old(displayType), env);
      displayType := NoDisplay;
    }

    /** The stereo branch of platform_set_mode: OS hook before OpenXR, OpenXR, OS hook after OpenXR, each only if the previous succeeded. */
    method StartStereo(h: Host) returns (result: bool)
      modifies this
      ensures displayType == old(displayType)
      ensures calls == old(calls) + StartCalls(Stereo, env, h)
      ensures result == StartResult(Stereo, env, h)
    {
      calls := calls + [OsStartPreXr];
      result := h.preXr;
      if result {
        if env.openXr {
          calls := calls + [OpenXrInit];
          result := h.openXrInit;
        } else {
          result := true;
        }
      }
      if result {
        calls := calls + [OsStartPostXr];
        result := h.postXr;
      }
    }

    /** The flatscreen branch of platform_set_mode: the window, then the simulator or the empty XR backend. */
    method StartFlat(h: Host) returns (result: bool)
      modifies this
      ensures displayType == old(displayType)
      ensures calls == old(calls) + StartCalls(Flatscreen, env, h)
      ensures result == StartResult(Flatscreen, env, h)
    {
      calls := calls + [OsStartFlat];
      result := h.startFlat;
      if env.settings.disableFlatscreenMrSim {
        calls := calls + [NoneInit];
      } else {
        calls := calls + [SimulatorInit];
      }
    }

    /** platform_set_mode */
    method SetMode(mode: DisplayType, h: Host) returns (result: bool)
      requires Valid()
      modifies this
      ensures Valid() && displayType == mode
      ensures calls == old(calls) + SetModeCalls(old(displayType), mode, env, h)
      ensures result == SetModeResult(old(displayType), mode, env, h)
    {
      if displayType == mode {
        return true;
      }
      StopMode();
      ghost var stopped := calls;
      displayType := mode;

      result := true;
      if mode == Stereo {
        result := StartStereo(h);
      } else if mode == Flatscreen {
        result := StartFlat(h);
      }
      assert calls == stopped + StartCalls(mode, env, h);
      Associate(old(calls), StopCalls(old(displayType), env), StartCalls(mode, env, h));
      LiveAfterAppend({}, stopped, StartCalls(mode, env, h));
      StartBringsUp({}, mode, env, h);
    }

    /** platform_step_begin */
    method StepBegin()
      requires Valid()
      modifies this
      ensures Valid() && displayType == old(displayType)
      ensures calls == old(calls) + StepBeginCalls(old(displayType), env)
    {
      match displayType {
        case NoDisplay =>
        case Stereo =>
          calls := calls + [OsStepBeginXr];
          if env.openXr {
            calls := calls + [OpenXrStepBegin];
          }
          calls := calls + [InputStep];
        case Flatscreen =>
          calls := calls + [OsStepBeginFlat, InputStep];
          if env.settings.disableFlatscreenMrSim {
            calls := calls + [NoneStepBegin];
          } else {
            calls := calls + [SimulatorStepBegin];
          }
      }
      calls := calls + [UtilsUpdate];
      assert calls == old(calls) + StepBeginCalls(displayType, env);
      StepCallsAreNeutral(displayType, env);
      AppendNeutral(old(calls), StepBeginCalls(displayType, env));
    }

    /** platform_step_end */
    method StepEnd()
      requires Valid()
      modifies this
      ensures Valid() && displayType == old(displayType)
      ensures calls == old(calls) + StepEndCalls(old(displayType), env)
    {
      match displayType {
        case NoDisplay =>
        case Stereo =>
          if env.openXr {
            Record(OpenXrStepEnd);
          }
        case Flatscreen =>
          if env.settings.disableFlatscreenMrSim {
            Record(NoneStepEnd);
          } else {
            Record(SimulatorStepEnd);
          }
          Record(OsStepEndFlat);
      }
    }

    /** platform_shutdown */
    method Shutdown()
      requires Valid()
      modifies this
      ensures Valid() && displayType == NoDisplay && Live(calls) == {}
      ensures calls == old(calls) + ShutdownCalls(old(displayType), env)
    {
      Record(UtilsShutdown);
      StopMode();
      Record(SkgShutdown);
      Record(OsShutdown);
      Record(DeviceDataFree);
    }

    /** The display step of platform_init: the requested display type, then the flatscreen fallback. */
    method StartRequestedDisplay(h: Host) returns (ok: bool)
      requires Valid()
      modifies this
      ensures Valid()
      ensures calls == old(calls) + DisplayStartCalls(old(displayType), env, h)
      ensures ok == DisplayStartResult(old(displayType), env, h)
      ensures displayType == if Retries(old(displayType), env, h) then Flatscreen else Requested(env)
    {
      var requested := TypeOfMode(env.settings.displayPreference);
      ok := SetMode(requested, h);
      if !ok {
        if !env.settings.noFlatscreenFallback && requested != Flatscreen {
          Record(ClearFailReason);
          ok := SetMode(Flatscreen, h);
        }
      }
    }

    /** The graphics step of platform_init. */
    method StartGraphics(h: Host) returns (ok: bool)
      requires Valid()
      modifies this
      ensures Valid() && displayType == old(displayType)
      ensures calls == old(calls) + GraphicsCalls(env, h)
      ensures ok == (h.skgInit > 0)
    {
      if env.openXr && env.settings.displayPreference == ModeMixedReality {
        Record(OpenXrGetLuid);
      }
      Record(SkgSetLogCallback);
      Record(SkgInit);
      ghost var gpu := calls;
      assert gpu == old(calls) + LuidCalls(env) + [SkgSetLogCallback, SkgInit];
      if h.skgInit <= 0 {
        Record(FailReason(95));
        ok := false;
      } else {
        Record(SkgAdapterName);
        ok := true;
      }
    }

    /** The tail of platform_init once sk_gpu is up: the display step, then the platform utilities. */
    method StartDisplayAndUtils(h: Host) returns (result: bool)
      requires Valid()
      modifies this
      ensures Valid()
      ensures calls == old(calls) + DisplayAndUtilsCalls(old(displayType), env, h)
      ensures result == (DisplayStartResult(old(displayType), env, h) && h.utilsInit)
      ensures displayType == if Retries(old(displayType), env, h) then Flatscreen else Requested(env)
    {
      var ok := StartRequestedDisplay(h);
      if !ok {
        return false;
      }
      Record(UtilsInit);
      result := h.utilsInit;
    }

    /** platform_init once the OS layer is up: graphics, then the display and utilities if the GPU came up. */
    method StartGraphicsAndDisplay(h: Host) returns (result: bool)
      requires Valid()
      modifies this
      ensures Valid()
      ensures calls == old(calls) + AfterOsCalls(old(displayType), env, h)
      ensures result == (h.skgInit > 0 && DisplayStartResult(old(displayType), env, h) && h.utilsInit)
      ensures displayType == InitDisplayType(old(displayType), env, h.(osInit := true))
    {
      ghost var t0 := displayType;
      var gpuOk := StartGraphics(h);
      ghost var gpuUp := calls;
      if !gpuOk {
        assert AfterGraphicsCalls(t0, env, h) == [];
        assert calls == old(calls) + GraphicsCalls(env, h) + [];
        Associate(old(calls), GraphicsCalls(env, h), []);
        return false;
      }
      result := StartDisplayAndUtils(h);
      Associate(old(calls), GraphicsCalls(env, h), AfterGraphicsCalls(t0, env, h));
    }

    /** platform_init */
    method Init(h: Host) returns (result: bool)
      requires Valid()
      modifies this
      ensures Valid()
      ensures calls == old(calls) + InitCalls(old(displayType), env, h)
      ensures result == InitResult(old(displayType), env, h)
      ensures displayType == InitDisplayType(old(displayType), env, h)
    {
      ghost var t0 := displayType;
      Record(DeviceDataInit);
      Record(OsInit);
      ghost var rest: seq<Call> := if h.osInit then AfterOsCalls(t0, env, h) else [FailReason(80)];
      assert InitCalls(t0, env, h) == [DeviceDataInit, OsInit] + rest;
      PushTwo(old(calls), DeviceDataInit, OsInit, rest);
      if !h.osInit {
        Record(FailReason(80));
        return false;
      }
      result := StartGraphicsAndDisplay(h);
    }
  }
}
