/** The click sequencer of the accessibility service
    (AutoClickAccessibilityService.kt) as pure step functions.

    The service's mutable fields `isExecuting` and `executionCount` become an
    immutable `Engine` record. Work that the platform holds on the service's
    behalf is explicit in the record too: ticks posted to the main-looper
    handler (`pending`) and gestures whose result callback has not run yet
    (`inFlight` for clicks of a sequence, `probes` for simulated clicks).
    Every step returns the next engine, the callback notifications it made
    in order, and whether an exception escaped it. */
module Clicker {
  import opened Basics

  /** A screen position. The coordinates are handed to the gesture and
      echoed in notifications; the service never computes with them. */
  datatype Point = Point(x: real, y: real)

  /** Names the callback object a notification is delivered to. */
  type Listener = nat

  /** The arguments of one `executeRapidClicks` call. Every tick of the
      sequence captures them in its closure. */
  datatype Request = Request(point: Point, total: int, intervalMs: int, listener: Listener)

  /** A gesture started by `simulateClick`, awaiting its result. */
  datatype Probe = Probe(point: Point, listener: Listener)

  /** A call of `executeClickSequence` posted to the handler, due after
      `delay` milliseconds. */
  datatype Tick = Tick(req: Request, delay: int)

  datatype Engine = Engine(
    isExecuting: bool,
    executionCount: int,
    pending: seq<Tick>,
    inFlight: seq<Request>,
    probes: seq<Probe>)

  /** What `dispatchGesture` does with a gesture: accepts it (the result
      arrives later through the gesture callback), refuses it (returns false,
      and `performClick` reports failure at once), or throws. */
  datatype Dispatch = Accepted | Refused | Threw

  /** The three methods of `ClickCallback`. */
  datatype Event =
    | ClickExecuted(count: int, point: Point)
    | SequenceCompleted(totalClicks: int)
    | ClickError(message: string)

  datatype Notice = Notice(to: Listener, event: Event)

  /** The result of one step: the next engine, the notifications made, and
      whether an exception propagated out of the step. */
  datatype Outcome = Outcome(engine: Engine, notices: seq<Notice>, raised: bool)

  /** The service snapshot returned by `getExecutionStats`. The map built by
      the service has no "serviceAvailable" key; the host's fallback has one. */
  datatype Stats = Stats(isExecuting: bool, executionCount: int, isReady: bool, serviceAvailable: Option<bool>)

  const ClickFailedMessage: string := "Click execution failed"
  const SimulationFailedMessage: string := "Click simulation failed"

  /** The state of a freshly created service. */
  const Fresh: Engine := Engine(false, 0, [], [], [])

  /** No tick is posted and no click of a sequence is awaiting its result. */
  predicate Settled(e: Engine) {
    e.pending == [] && e.inFlight == []
  }

  /** Drift correction: the wait before the next tick is what is left of the
      interval after the time the click took, and never negative. */
  function DriftDelay(intervalMs: int, elapsed: int): (delay: int)
    ensures delay >= 0
    ensures delay >= intervalMs - elapsed
    ensures delay == 0 || delay == intervalMs - elapsed
    ensures elapsed >= intervalMs ==> delay == 0
    ensures 0 <= elapsed && 0 <= intervalMs ==> delay <= intervalMs
  {
    if intervalMs - elapsed > 0 then intervalMs - elapsed else 0
  }

  /** The success/failure lambda that `executeClickSequence` hands to
      `performClick`, run for a click of sequence `r`. */
  function OnClickResult(e: Engine, r: Request, success: bool, elapsed: int): (o: Outcome)
    ensures !o.raised
    ensures o.engine.inFlight == e.inFlight && o.engine.probes == e.probes
    // success: one more click, reported with the new count, and exactly one tick posted
    ensures success ==> o.engine.executionCount == e.executionCount + 1
    ensures success ==> o.notices == [Notice(r.listener, ClickExecuted(e.executionCount + 1, r.point))]
    ensures success ==> o.engine.pending == e.pending + [Tick(r, DriftDelay(r.intervalMs, elapsed))]
    // completion is never reported here: the flag is left as it was
    ensures success ==> o.engine.isExecuting == e.isExecuting
    // failure: one error, the sequence ends, the count stays and nothing is posted
    ensures !success ==> o.engine == e.(isExecuting := false)
    ensures !success ==> o.notices == [Notice(r.listener, ClickError(ClickFailedMessage))]
  {
    if success then
      var count := e.executionCount + 1;
      Outcome(e.(executionCount := count,
                 pending := e.pending + [Tick(r, DriftDelay(r.intervalMs, elapsed))]),
              [Notice(r.listener, ClickExecuted(count, r.point))], false)
    else
      Outcome(e.(isExecuting := false), [Notice(r.listener, ClickError(ClickFailedMessage))], false)
  }

  /** `performClick` for a click of sequence `r`. */
  function PerformClick(e: Engine, r: Request, d: Dispatch): (o: Outcome)
    ensures o.engine.executionCount == e.executionCount && o.engine.pending == e.pending
    ensures o.engine.probes == e.probes
    ensures d == Accepted ==> o == Outcome(e.(inFlight := e.inFlight + [r]), [], false)
    ensures d == Refused ==> o.engine == e.(isExecuting := false) && !o.raised
    ensures d == Refused ==> o.notices == [Notice(r.listener, ClickError(ClickFailedMessage))]
    ensures d == Threw ==> o == Outcome(e, [], true)
  {
    match d
    case Accepted => Outcome(e.(inFlight := e.inFlight + [r]), [], false)
    case Refused => OnClickResult(e, r, false, 0)
    case Threw => Outcome(e, [], true)
  }

  /** One tick of sequence `r`: it finishes the sequence when the flag is
      clear or the count is reached, and otherwise dispatches one click. */
  function ExecuteClickSequence(e: Engine, r: Request, d: Dispatch): (o: Outcome)
    ensures o.engine.executionCount == e.executionCount
    ensures o.engine.pending == e.pending && o.engine.probes == e.probes
    // finishing: flag cleared and the count reached so far reported, nothing dispatched
    ensures !e.isExecuting || e.executionCount >= r.total ==>
              o == Outcome(e.(isExecuting := false),
                           [Notice(r.listener, SequenceCompleted(e.executionCount))], false)
    // continuing: exactly the click of this sequence is handed to the platform
    ensures e.isExecuting && e.executionCount < r.total ==> o == PerformClick(e, r, d)
    ensures e.isExecuting && e.executionCount < r.total && d == Accepted ==>
              o.engine.isExecuting && o.engine.inFlight == e.inFlight + [r] && o.notices == []
  {
    if !e.isExecuting || e.executionCount >= r.total then
      Outcome(e.(isExecuting := false), [Notice(r.listener, SequenceCompleted(e.executionCount))], false)
    else
      PerformClick(e, r, d)
  }

  /** `executeRapidClicks`: a request while a sequence is executing is
      ignored; otherwise the flag is raised, the count reset, and the first
      tick runs at once. */
  function ExecuteRapidClicks(e: Engine, r: Request, d: Dispatch): (o: Outcome)
    ensures e.isExecuting ==> o == Outcome(e, [], false)
    ensures !e.isExecuting ==> o.engine.executionCount == 0
    ensures !e.isExecuting ==> o.engine.pending == e.pending && o.engine.probes == e.probes
    ensures !e.isExecuting && r.total <= 0 ==>
              o == Outcome(e.(executionCount := 0), [Notice(r.listener, SequenceCompleted(0))], false)
    ensures !e.isExecuting && r.total > 0 && d == Accepted ==>
              o == Outcome(e.(isExecuting := true, executionCount := 0, inFlight := e.inFlight + [r]), [], false)
    ensures !e.isExecuting && r.total > 0 && d == Refused ==>
              !o.engine.isExecuting && !o.raised
              && o.notices == [Notice(r.listener, ClickError(ClickFailedMessage))]
    // a throwing dispatch leaves the flag raised with nothing outstanding
    ensures !e.isExecuting && r.total > 0 && d == Threw ==>
              o.raised && o.engine.isExecuting && o.engine.inFlight == e.inFlight && o.notices == []
  {
    if e.isExecuting then
      Outcome(e, [], false)
    else
      ExecuteClickSequence(e.(isExecuting := true, executionCount := 0), r, d)
  }

  /** The result lambda of `simulateClick`. */
  function OnProbeResult(e: Engine, p: Probe, success: bool): (o: Outcome)
    ensures o.engine == e && !o.raised
    ensures success ==> o.notices == [Notice(p.listener, ClickExecuted(1, p.point))]
    ensures !success ==> o.notices == [Notice(p.listener, ClickError(SimulationFailedMessage))]
  {
    Outcome(e, [Notice(p.listener, if success then ClickExecuted(1, p.point)
                                   else ClickError(SimulationFailedMessage))], false)
  }

  /** `simulateClick`: one click outside any sequence, allowed at any time. */
  function SimulateClick(e: Engine, p: Probe, d: Dispatch): (o: Outcome)
    ensures o.engine.isExecuting == e.isExecuting
    ensures o.engine.executionCount == e.executionCount
    ensures o.engine.pending == e.pending && o.engine.inFlight == e.inFlight
    ensures d == Accepted ==> o.engine.probes == e.probes + [p] && o.notices == []
    ensures d != Accepted ==> o.engine.probes == e.probes
    ensures d == Refused ==> o.notices == [Notice(p.listener, ClickError(SimulationFailedMessage))]
    ensures o.raised <==> d == Threw
  {
    match d
    case Accepted => Outcome(e.(probes := e.probes + [p]), [], false)
    case Refused => OnProbeResult(e, p, false)
    case Threw => Outcome(e, [], true)
  }

  /** `stopExecution`: clears the flag and removes every posted tick. A
      gesture already handed to the platform is not withdrawn. */
  function StopExecution(e: Engine): (r: Engine)
    ensures !r.isExecuting && r.pending == []
    ensures r.executionCount == e.executionCount
    ensures r.inFlight == e.inFlight && r.probes == e.probes
  {
    e.(isExecuting := false, pending := [])
  }

  /** `emergencyStop` delegates to `stopExecution`. */
  function EmergencyStop(e: Engine): (r: Engine)
    ensures !r.isExecuting && r.pending == []
    ensures r.executionCount == e.executionCount
    ensures r.inFlight == e.inFlight && r.probes == e.probes
  {
    StopExecution(e)
  }

  /** `onInterrupt`, called by the system, delegates to `stopExecution`. */
  function OnInterrupt(e: Engine): (r: Engine)
    ensures !r.isExecuting && r.pending == []
    ensures r.executionCount == e.executionCount
    ensures r.inFlight == e.inFlight && r.probes == e.probes
  {
    StopExecution(e)
  }

  /** `isReady`: the service is connected (its `serviceInfo` is set) and no
      sequence is executing. Being ready is exactly being able to start: a
      connected service is ready iff `executeRapidClicks` would not ignore a
      request, whatever the request and the platform's answer. */
  function IsReady(e: Engine, connected: bool): (ready: bool)
    ensures ready ==> connected
    ensures ready <==> connected && !e.isExecuting
    ensures forall r: Request, d: Dispatch ::
              ready <==> connected && ExecuteRapidClicks(e, r, d) != Outcome(e, [], false)
  {
    connected && !e.isExecuting
  }

  /** `getExecutionStats`. */
  function GetExecutionStats(e: Engine, connected: bool): (s: Stats)
    ensures s.isExecuting == e.isExecuting && s.executionCount == e.executionCount
    ensures s.isReady ==> !s.isExecuting
    ensures s.isReady == IsReady(e, connected)
    ensures s.serviceAvailable == None
  {
    Stats(e.isExecuting, e.executionCount, IsReady(e, connected), None)
  }

  lemma StopIsIdempotent(e: Engine)
    ensures StopExecution(StopExecution(e)) == StopExecution(e)
    ensures EmergencyStop(e) == StopExecution(e)
    ensures OnInterrupt(e) == StopExecution(e)
    ensures !IsReady(e, false)
  {
  }
}
