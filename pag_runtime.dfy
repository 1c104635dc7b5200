/**
 * The module-level state of the Pag adapter component (`Pag/index.tsx`):
 * the one-shot engine initialisation guard, the shared FPS-monitor timer
 * slot, and the playback timestamps used to detect stutter.
 *
 * The fetch of the wasm binary, `libpag.PAGInit` and the font registration
 * are opaque; the asynchronous body of `initializePAG` is modelled as events
 * that move an in-flight attempt from one `await` to the next.
 */
module PagRuntime {
  import opened Options

  /** The phase names in the error message of a failed initialisation. */
  const LoadWasmPhase: string := "加载WASM文件"
  const PagInitPhase: string := "libpag.PAGInit"

  /** Playback slower than nominal by more than this many milliseconds is a stutter (`1000 * 2`). */
  const StutterToleranceMs: int := 1000 * 2

  /**
   * The phase named when an attempt fails: the wasm fetch while `WASM_FILE`
   * is still null, `libpag.PAGInit` once it is set.
   */
  function PhaseLabel(wasmFileSet: bool): (phase: string)
    ensures phase == LoadWasmPhase <==> !wasmFileSet
    ensures phase == PagInitPhase <==> wasmFileSet
  {
    if !wasmFileSet then LoadWasmPhase else PagInitPhase
  }

  /**
   * The stutter test `diff > 1000 * 2`, where diff is the elapsed wall-clock
   * time in milliseconds minus `pagFile.duration() / 1000` (the duration is
   * in microseconds). Computed on integers, scaled by 1000.
   */
  function NotSmooth(elapsedMs: int, durationUs: int): (stutter: bool)
    ensures stutter <==> (elapsedMs as real) - (durationUs as real) / 1000.0 > StutterToleranceMs as real
  {
    1000 * elapsedMs - durationUs > 1000 * StutterToleranceMs
  }

  /** Where the in-flight `initializePAG` attempt is waiting. */
  datatype Stage =
    | Idle             // no attempt in flight
    | FetchingWasm     // awaiting `fetch(pagWasmUrl)` and its blob
    | RunningPagInit   // awaiting `window.libpag.PAGInit`
    | RegisteringFont  // `PAG_INIT` set; the optional font registration remains

  /** What a call of `initializePAG` returns. */
  datatype InitOutcome =
    | AlreadyInitialized    // returned at once: both `WASM_FILE` and `PAG_INIT` are set
    | Joined(promise: nat)  // returned the in-flight `initializePAGPromise`
    | Started(promise: nat) // started a new attempt, with this promise

  /** The identifier returned by `window.setInterval`, always positive. */
  type TimerId = t: int | t > 0 witness 1

  function SlotTimers(slot: Option<TimerId>): set<TimerId> {
    if slot.Some? then {slot.value} else {}
  }

  /** The globals of `Pag/index.tsx`, shared by every mounted Pag component. */
  class PagGlobals {
    /** `WASM_FILE != null` */
    var wasmFile: bool
    /** `PAG_INIT != null` */
    var pagInit: bool
    var isInitializing: bool
    /** `initializePAGPromise`: the promise of the latest attempt, by number */
    var initializePromise: Option<nat>
    /** How far the in-flight attempt has got */
    var stage: Stage
    /** Attempts started so far; each starts one fetch of the wasm binary */
    var attempts: nat

    /** `fpsMonitorTimer` */
    var fpsMonitorTimer: Option<TimerId>
    /** The intervals created by `setInterval` and not yet cleared */
    var runningTimers: set<TimerId>

    var playStartTimestamp: int
    var repeatStartTimestamp: int

    /** The initialisation globals agree with each other and with the stage of the attempt. */
    predicate InitValid()
      reads this
    {
      && (isInitializing <==> stage != Idle)
      && (isInitializing ==> initializePromise.Some?)
      && (pagInit ==> wasmFile)
      && (stage == FetchingWasm ==> !pagInit)
      && (stage == RunningPagInit ==> wasmFile && !pagInit)
      && (stage == RegisteringFont ==> pagInit)
      && (initializePromise.Some? <==> attempts > 0)
      && (initializePromise.Some? ==> initializePromise.value == attempts - 1)
    }

    /** At most one interval runs, and it is the one in the slot. */
    predicate TimerValid()
      reads this
    {
      runningTimers <= SlotTimers(fpsMonitorTimer)
    }

    predicate Valid()
      reads this
    {
      InitValid() && TimerValid()
    }

    /** The globals when the module is first evaluated. */
    constructor ()
      ensures Valid()
      ensures !wasmFile && !pagInit && !isInitializing && initializePromise == None
      ensures stage == Idle && attempts == 0
      ensures fpsMonitorTimer == None && runningTimers == {}
      ensures playStartTimestamp == 0 && repeatStartTimestamp == 0
    {
      wasmFile, pagInit, isInitializing := false, false, false;
      initializePromise, stage, attempts := None, Idle, 0;
      fpsMonitorTimer, runningTimers := None, {};
      playStartTimestamp, repeatStartTimestamp := 0, 0;
    }

    /**
     * `initializePAG`: nothing to do once both globals are set; the in-flight
     * promise while an attempt runs; otherwise a new attempt and promise.
     */
    method InitializePAG() returns (r: InitOutcome)
      requires InitValid()
      modifies this`isInitializing, this`initializePromise, this`stage, this`attempts
      ensures InitValid()
      ensures old(wasmFile && pagInit) ==>
        r == AlreadyInitialized && unchanged(this)
      ensures !old(wasmFile && pagInit) && old(isInitializing) ==>
        r == Joined(old(initializePromise).value) && unchanged(this)
      ensures !old(wasmFile && pagInit) && !old(isInitializing) ==>
        && r == Started(old(attempts))
        && isInitializing && stage == FetchingWasm
        && initializePromise == Some(old(attempts))
        && attempts == old(attempts) + 1
    {
      if wasmFile && pagInit {
        return AlreadyInitialized;
      }
      if isInitializing {
        return Joined(initializePromise.value);
      }
      isInitializing := true;
      initializePromise := Some(attempts);
      stage := FetchingWasm;
      r := Started(attempts);
      attempts := attempts + 1;
    }

    /** The fetch of the wasm binary resolves: `WASM_FILE` is set. */
    method WasmFetched()
      requires InitValid() && stage == FetchingWasm
      modifies this`wasmFile, this`stage
      ensures InitValid()
      ensures wasmFile && stage == RunningPagInit
    {
      wasmFile := true;
      stage := RunningPagInit;
    }

    /** `libpag.PAGInit` resolves: `PAG_INIT` is set. */
    method PagInitResolved()
      requires InitValid() && stage == RunningPagInit
      modifies this`pagInit, this`stage
      ensures InitValid()
      ensures pagInit && stage == RegisteringFont
    {
      pagInit := true;
      stage := RegisteringFont;
    }

    /** The attempt's body completes (any font is registered); `finally` clears the flag. */
    method AttemptSucceeded()
      requires InitValid() && stage == RegisteringFont
      modifies this`isInitializing, this`stage
      ensures InitValid()
      ensures !isInitializing && stage == Idle
      ensures wasmFile && pagInit
    {
      isInitializing := false;
      stage := Idle;
    }

    /**
     * A step of the attempt throws: the error names the phase from `WASM_FILE`,
     * the promise rejects, and `finally` clears the flag. The globals that were
     * set stay set.
     */
    method AttemptFailed() returns (phase: string)
      requires InitValid() && stage != Idle
      modifies this`isInitializing, this`stage
      ensures InitValid()
      ensures phase == PhaseLabel(wasmFile)
      ensures !isInitializing && stage == Idle
    {
      phase := PhaseLabel(wasmFile);
      isInitializing := false;
      stage := Idle;
    }

    /**
     * `startFPSMonitoring`: clears the interval in the slot, if any; when
     * logging, `handle` is the new interval from `setInterval`, stored in the
     * slot. Without logging the slot keeps the cleared, stale handle.
     */
    method StartFPSMonitoring(shouldLogFPS: bool, handle: TimerId)
      requires TimerValid()
      modifies this`fpsMonitorTimer, this`runningTimers
      ensures TimerValid()
      ensures shouldLogFPS ==> fpsMonitorTimer == Some(handle) && runningTimers == {handle}
      ensures !shouldLogFPS ==> fpsMonitorTimer == old(fpsMonitorTimer) && runningTimers == {}
    {
      if fpsMonitorTimer.Some? {
        runningTimers := runningTimers - {fpsMonitorTimer.value};
      }
      if shouldLogFPS {
        runningTimers := runningTimers + {handle};
        fpsMonitorTimer := Some(handle);
      }
    }

    /** `stopFPSMonitoring`: clears the interval in the slot and empties the slot. */
    method StopFPSMonitoring()
      requires TimerValid()
      modifies this`fpsMonitorTimer, this`runningTimers
      ensures TimerValid()
      ensures fpsMonitorTimer == None && runningTimers == {}
    {
      if fpsMonitorTimer.Some? {
        runningTimers := runningTimers - {fpsMonitorTimer.value};
        fpsMonitorTimer := None;
      }
    }

    /** `onAnimationStart` at clock time `now`: both timestamps set, FPS monitoring (re)started. */
    method OnAnimationStart(now: int, shouldLogFPS: bool, handle: TimerId)
      requires TimerValid()
      modifies this`playStartTimestamp, this`repeatStartTimestamp, this`fpsMonitorTimer, this`runningTimers
      ensures TimerValid()
      ensures playStartTimestamp == now && repeatStartTimestamp == now
      ensures shouldLogFPS ==> fpsMonitorTimer == Some(handle) && runningTimers == {handle}
      ensures !shouldLogFPS ==> fpsMonitorTimer == old(fpsMonitorTimer) && runningTimers == {}
    {
      playStartTimestamp := now;
      repeatStartTimestamp := now;
      StartFPSMonitoring(shouldLogFPS, handle);
    }

    /**
     * `onAnimationEnd` at clock time `now` for a file of `durationUs`
     * microseconds: reports a stutter (the not-smooth callback) measured from
     * the play start, and stops FPS monitoring.
     */
    method OnAnimationEnd(now: int, durationUs: int) returns (notSmooth: bool)
      requires TimerValid()
      modifies this`fpsMonitorTimer, this`runningTimers
      ensures TimerValid()
      ensures notSmooth == NotSmooth(now - playStartTimestamp, durationUs)
      ensures fpsMonitorTimer == None && runningTimers == {}
    {
      var playDuration := now - playStartTimestamp;
      notSmooth := NotSmooth(playDuration, durationUs);
      StopFPSMonitoring();
    }

    /**
     * `onAnimationRepeat` at clock time `now`: measures from the previous
     * repeat boundary, moves that boundary to `now`, reports a stutter, and
     * stops FPS monitoring.
     */
    method OnAnimationRepeat(now: int, durationUs: int) returns (notSmooth: bool)
      requires TimerValid()
      modifies this`repeatStartTimestamp, this`fpsMonitorTimer, this`runningTimers
      ensures TimerValid()
      ensures notSmooth == NotSmooth(now - old(repeatStartTimestamp), durationUs)
      ensures repeatStartTimestamp == now
      ensures fpsMonitorTimer == None && runningTimers == {}
    {
      var playDuration := now - repeatStartTimestamp;
      repeatStartTimestamp := now;
      notSmooth := NotSmooth(playDuration, durationUs);
      StopFPSMonitoring();
    }

    /** `onAnimationPause`: stops FPS monitoring. */
    method OnAnimationPause()
      requires TimerValid()
      modifies this`fpsMonitorTimer, this`runningTimers
      ensures TimerValid()
      ensures fpsMonitorTimer == None && runningTimers == {}
    {
      StopFPSMonitoring();
    }

    /** `onAnimationPlay`: (re)starts FPS monitoring. */
    method OnAnimationPlay(shouldLogFPS: bool, handle: TimerId)
      requires TimerValid()
      modifies this`fpsMonitorTimer, this`runningTimers
      ensures TimerValid()
      ensures shouldLogFPS ==> fpsMonitorTimer == Some(handle) && runningTimers == {handle}
      ensures !shouldLogFPS ==> fpsMonitorTimer == old(fpsMonitorTimer) && runningTimers == {}
    {
      StartFPSMonitoring(shouldLogFPS, handle);
    }
  }

  /**
   * Two components mount while the engine is not initialised: the second
   * joins the first attempt's promise, and once it succeeds a third call
   * returns at once. Only one fetch of the wasm binary is started.
   */
  method ConcurrentMountScenario() returns (first: InitOutcome, second: InitOutcome, third: InitOutcome, fetches: nat)
    ensures first == Started(0) && second == Joined(0) && third == AlreadyInitialized
    ensures fetches == 1
  {
    var g := new PagGlobals();
    first := g.InitializePAG();
    second := g.InitializePAG();
    g.WasmFetched();
    g.PagInitResolved();
    g.AttemptSucceeded();
    third := g.InitializePAG();
    fetches := g.attempts;
  }

  /**
   * A failure before `PAG_INIT` is set lets the next call start a second
   * attempt. Because the phase is read from the global `WASM_FILE`, when the
   * first attempt fetched the binary and failed in `PAGInit`, a second attempt
   * whose own fetch fails is also reported as a `libpag.PAGInit` failure.
   */
  method RetryAfterFailureScenario() returns (retry: InitOutcome, firstPhase: string, secondPhase: string)
    ensures retry == Started(1)
    ensures firstPhase == PagInitPhase && secondPhase == PagInitPhase
  {
    var g := new PagGlobals();
    var _ := g.InitializePAG();
    g.WasmFetched();
    firstPhase := g.AttemptFailed();
    retry := g.InitializePAG();
    // the second attempt fails in `fetch`, before its own `WASM_FILE` assignment
    secondPhase := g.AttemptFailed();
  }

  /**
   * A failure in the font registration, after `PAG_INIT` is set, leaves the
   * engine counted as initialised: the next call returns at once.
   */
  method FontFailureScenario() returns (phase: string, next: InitOutcome)
    ensures phase == PagInitPhase && next == AlreadyInitialized
  {
    var g := new PagGlobals();
    var _ := g.InitializePAG();
    g.WasmFetched();
    g.PagInitResolved();
    phase := g.AttemptFailed();
    next := g.InitializePAG();
  }

  /**
   * Monitoring with logging off: the start handler clears the old interval
   * but the slot keeps its stale handle until a stop empties it.
   */
  method StaleSlotScenario(h1: TimerId, h2: TimerId) returns (afterStart: Option<TimerId>, afterStop: Option<TimerId>, running: set<TimerId>)
    ensures afterStart == Some(h1) && afterStop == None && running == {}
  {
    var g := new PagGlobals();
    g.OnAnimationPlay(true, h1);
    g.OnAnimationStart(0, false, h2);
    afterStart := g.fpsMonitorTimer;
    running := g.runningTimers;
    g.OnAnimationPause();
    afterStop := g.fpsMonitorTimer;
  }
}
