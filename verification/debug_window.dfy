/**
 * The capture layer of the debug overlay as a state machine over one
 * overlay instance and the host environment it patches.
 *
 * - `Environment` holds the three global entry points the overlay replaces
 *   (`console.log`, `console.error`, `window.fetch`), the window listeners it
 *   registers, and the number of live `requestAnimationFrame` sampling loops.
 * - `Overlay` holds the overlay's own state: the capture buffer `logs`, the
 *   expanded-record set, the metrics slot and the sampler's two refs.
 * - An entry point is a tagged value (`Fn`); a wrapper carries the original it
 *   saved when it was installed, and a wrapper call returns the call it
 *   forwards to that original.
 */
module DebugWindow {
  import opened Wrappers
  import opened Records
  import opened Sampler
  import opened Expansion

  /** A global entry point: a host function, or one of the overlay's wrappers around a saved original. */
  datatype Fn =
    | Native(name: string)
    | ConsoleLogWrapper(saved: Fn)
    | ConsoleErrorWrapper(saved: Fn)
    | FetchWrapper(saved: Fn)

  /** A window listener the overlay registers. */
  datatype Listener = ImageErrorCapture | MouseMoveListener | ResizeListener

  /** A console call as it reaches a function: `original.apply(console, args)`. */
  datatype ConsoleCall = ConsoleCall(target: Fn, args: seq<Value>)

  /** A fetch call as it reaches a function: `originalFetch(input, init)`. */
  datatype FetchCall = FetchCall(target: Fn, input: Target, init: Option<Init>)

  /** Reading a response body through `response.clone().text()`: its text, or what it threw. */
  datatype BodyRead = BodyText(text: string) | BodyFailed(error: Thrown)

  /** How the original fetch settled, with the outcome of the body read when it resolved. */
  datatype FetchOutcome = Resolved(response: Response, body: BodyRead) | Rejected(error: Thrown)

  /** What the wrapped fetch gives its caller: the original response, or a thrown value. */
  datatype FetchResult = Returned(response: Response) | Threw(error: Thrown)

  /** The target of a window `error` event. */
  datatype EventTarget = ImageElement(src: string) | OtherElement

  /**
   * `getThirdPartyLibraries`: each entry of the optional global dependency
   * registry, in its enumeration order, as `name@version`; none when the
   * registry is absent.
   */
  function ThirdPartyLibraries(registry: Option<seq<(string, string)>>): (libs: seq<string>)
    ensures registry.None? ==> libs == []
    ensures registry.Some? ==> |libs| == |registry.value|
    ensures registry.Some? ==> forall i :: 0 <= i < |libs| ==>
      libs[i] == registry.value[i].0 + "@" + registry.value[i].1
  {
    match registry
    case None => []
    case Some(entries) => seq(|entries|, i requires 0 <= i < |entries| => entries[i].0 + "@" + entries[i].1)
  }

  /** The originals saved at install time, which the teardown closure puts back. */
  datatype Originals = Originals(log: Fn, error: Fn, fetch: Fn)

  /** The host environment: the global entry points and what is registered on `window`. */
  class Environment {
    var consoleLog: Fn
    var consoleError: Fn
    var fetch: Fn
    var listeners: multiset<Listener>
    /** Sampling loops that keep rescheduling themselves through `requestAnimationFrame`. */
    var frameLoops: nat

    /** A host with its own entry points and nothing registered yet. */
    constructor (log: Fn, error: Fn, fetch: Fn)
      ensures consoleLog == log && consoleError == error && this.fetch == fetch
      ensures listeners == multiset{} && frameLoops == 0
    {
      consoleLog, consoleError, this.fetch := log, error, fetch;
      listeners, frameLoops := multiset{}, 0;
    }
  }

  class Overlay {
    /** The capture buffer: every intercepted event, in the order observed. */
    var logs: seq<LogEntry>
    var expandedLogs: set<nat>
    var metrics: PerformanceMetrics
    var frameCount: nat
    var lastFrameTime: int

    /** The sampler refs together with the metrics slot. */
    function Sampling(): SamplerState
      reads this
    {
      SamplerState(frameCount, lastFrameTime, metrics)
    }

    /** Mounting: empty buffer, nothing expanded, zeroed metrics with the current window size. */
    constructor (now: int, viewport: Size)
      ensures logs == [] && expandedLogs == {}
      ensures Sampling() == SamplerState(0, now, InitialMetrics(viewport))
    {
      logs, expandedLogs := [], {};
      metrics := InitialMetrics(viewport);
      frameCount, lastFrameTime := 0, now;
    }

    /** The `console.log` wrapper: append one `log` record, then forward the same arguments. */
    method ConsoleLog(saved: Fn, args: seq<Value>, now: int) returns (forwarded: ConsoleCall)
      modifies this`logs
      ensures logs == old(logs) + [LogRecord(args, now)]
      ensures forwarded == ConsoleCall(saved, args)
    {
      logs := logs + [LogRecord(args, now)];
      forwarded := ConsoleCall(saved, args);
    }

    /** The `console.error` wrapper: append one `error` record, then forward the same arguments. */
    method ConsoleError(saved: Fn, args: seq<Value>, now: int) returns (forwarded: ConsoleCall)
      modifies this`logs
      ensures logs == old(logs) + [ErrorRecord(args, now)]
      ensures forwarded == ConsoleCall(saved, args)
    {
      logs := logs + [ErrorRecord(args, now)];
      forwarded := ConsoleCall(saved, args);
    }

    /**
     * The `window.fetch` wrapper. It calls the saved original with the
     * caller's arguments; `outcome` is how that call (and the body read)
     * settled, `startTime` and `endTime` the clock before the call and after
     * it settled. A resolved call whose body reads appends a `network`
     * record and returns the original response; otherwise one `error` record
     * is appended and the same thrown value is rethrown.
     */
    method Fetch(saved: Fn, input: Target, init: Option<Init>, startTime: int, outcome: FetchOutcome, endTime: int)
      returns (forwarded: FetchCall, result: FetchResult)
      modifies this`logs
      ensures forwarded == FetchCall(saved, input, init)
      ensures outcome.Resolved? && outcome.body.BodyText? ==>
        result == Returned(outcome.response) &&
        logs == old(logs) + [NetworkRecord(input, init, outcome.response, outcome.body.text, startTime, endTime)]
      ensures outcome.Resolved? && outcome.body.BodyFailed? ==>
        result == Threw(outcome.body.error) &&
        logs == old(logs) + [FetchErrorRecord(input, outcome.body.error, startTime, endTime)]
      ensures outcome.Rejected? ==>
        result == Threw(outcome.error) &&
        logs == old(logs) + [FetchErrorRecord(input, outcome.error, startTime, endTime)]
    {
      forwarded := FetchCall(saved, input, init);
      var thrown: Thrown;
      match outcome {
        case Resolved(response, BodyText(text)) =>
          logs := logs + [NetworkRecord(input, init, response, text, startTime, endTime)];
          return forwarded, Returned(response);
        case Resolved(_, BodyFailed(e)) =>
          thrown := e;
        case Rejected(e) =>
          thrown := e;
      }
      logs := logs + [FetchErrorRecord(input, thrown, startTime, endTime)];
      result := Threw(thrown);
    }

    /** The capture-phase `error` listener: image failures append an `image` record, all else is ignored. */
    method WindowError(target: EventTarget, error: Option<ErrorInfo>, now: int)
      modifies this`logs
      ensures target.ImageElement? ==> logs == old(logs) + [ImageRecord(target.src, error, now)]
      ensures target.OtherElement? ==> logs == old(logs)
    {
      if target.ImageElement? {
        logs := logs + [ImageRecord(target.src, error, now)];
      }
    }

    /** One run of the sampling callback for a display frame. */
    method SampleFrame(f: Frame)
      modifies this`frameCount, this`lastFrameTime, this`metrics
      ensures Sampling() == Tick(old(Sampling()), f)
    {
      var elapsed := f.now - lastFrameTime;
      frameCount := frameCount + 1;
      if elapsed >= FlushInterval {
        var fps := Fps(frameCount, elapsed);
        metrics := Flushed(metrics, fps, f.memory, f.viewport);
        frameCount := 0;
        lastFrameTime := f.now;
      }
    }

    /** The `mousemove` listener. */
    method MouseMove(p: Point)
      modifies this`metrics
      ensures metrics == MouseMoved(old(metrics), p)
    {
      metrics := MouseMoved(metrics, p);
    }

    /** The `resize` listener. */
    method Resize(viewport: Size)
      modifies this`metrics
      ensures metrics == Resized(old(metrics), viewport)
    {
      metrics := Resized(metrics, viewport);
    }

    /** Clicking a record's header. */
    method ToggleExpand(index: nat)
      modifies this`expandedLogs
      ensures expandedLogs == Toggle(old(expandedLogs), index)
    {
      expandedLogs := Toggle(expandedLogs, index);
    }

    /**
     * The mount effect: save the three originals, replace them by wrappers,
     * register the capture-phase image listener, run the first sampling tick
     * (which schedules the loop), then register the pointer and resize
     * listeners. The result is what the teardown closure restores.
     */
    method Install(env: Environment, first: Frame) returns (saved: Originals)
      modifies env, this`frameCount, this`lastFrameTime, this`metrics
      ensures saved == Originals(old(env.consoleLog), old(env.consoleError), old(env.fetch))
      ensures env.consoleLog == ConsoleLogWrapper(saved.log)
      ensures env.consoleError == ConsoleErrorWrapper(saved.error)
      ensures env.fetch == FetchWrapper(saved.fetch)
      ensures env.listeners == old(env.listeners) + multiset{ImageErrorCapture, MouseMoveListener, ResizeListener}
      ensures env.frameLoops == old(env.frameLoops) + 1
      ensures Sampling() == Tick(old(Sampling()), first)
    {
      saved := Originals(env.consoleLog, env.consoleError, env.fetch);
      env.consoleLog := ConsoleLogWrapper(saved.log);
      env.consoleError := ConsoleErrorWrapper(saved.error);
      env.fetch := FetchWrapper(saved.fetch);
      env.listeners := env.listeners + multiset{ImageErrorCapture};
      SampleFrame(first);
      env.frameLoops := env.frameLoops + 1;
      env.listeners := env.listeners + multiset{MouseMoveListener, ResizeListener};
    }
  }

  /**
   * The teardown closure: put the saved originals back and remove the pointer
   * and resize listeners. The capture-phase image listener stays registered
   * and the sampling loop is not cancelled.
   */
  method Teardown(env: Environment, saved: Originals)
    modifies env
    ensures env.consoleLog == saved.log && env.consoleError == saved.error && env.fetch == saved.fetch
    ensures env.listeners == old(env.listeners) - multiset{MouseMoveListener, ResizeListener}
    ensures env.frameLoops == old(env.frameLoops)
  {
    env.consoleLog := saved.log;
    env.consoleError := saved.error;
    env.fetch := saved.fetch;
    env.listeners := env.listeners - multiset{MouseMoveListener, ResizeListener};
  }

  /**
   * A whole mount/unmount cycle on a host that had no overlay listeners: the
   * three entry points are back to their originals, but one image listener and
   * one sampling loop outlive the overlay.
   */
  method MountThenUnmount(env: Environment, mountTime: int, viewport: Size, first: Frame)
    modifies env
    ensures env.consoleLog == old(env.consoleLog)
    ensures env.consoleError == old(env.consoleError)
    ensures env.fetch == old(env.fetch)
    ensures env.listeners == old(env.listeners) + multiset{ImageErrorCapture}
    ensures env.frameLoops == old(env.frameLoops) + 1
  {
    var overlay := new Overlay(mountTime, viewport);
    var saved := overlay.Install(env, first);
    Teardown(env, saved);
  }

  /**
   * While mounted, a host `console.log` call goes through the wrapper: the
   * buffer gains exactly that call's record and the arguments reach the
   * function that was installed before the overlay.
   */
  method LogWhileMounted(env: Environment, mountTime: int, viewport: Size, first: Frame, args: seq<Value>, now: int)
    returns (overlay: Overlay, forwarded: ConsoleCall)
    modifies env
    ensures overlay.logs == [LogRecord(args, now)]
    ensures forwarded == ConsoleCall(old(env.consoleLog), args)
  {
    overlay := new Overlay(mountTime, viewport);
    var saved := overlay.Install(env, first);
    forwarded := overlay.ConsoleLog(env.consoleLog.saved, args, now);
  }
}
