/** The method-call handler of the app's main activity (MainActivity.kt): a
    decision table from a call, the state of the two services and what the
    platform does during the call, to a reply and the services' next state.

    The accessibility service's singleton `instance` is reduced to whether a
    service is present; its `serviceInfo` to whether it is connected. The
    timer service is started and stopped through the platform; starting runs
    `onStartCommand` with an intent carrying both extras, stopping runs
    `onDestroy`. */
module Host {
  import opened Basics
  import opened Clicker
  import KeepAlive

  /** The call's arguments; an argument the caller left out is `None`. */
  datatype Args = Args(
    x: Option<real>,
    y: Option<real>,
    count: Option<int>,
    intervalMs: Option<int>,
    targetTime: Option<int>,
    description: Option<string>)

  const NoArgs: Args := Args(None, None, None, None, None, None)

  datatype MethodCall = MethodCall(name: string, args: Args)

  datatype ClickService = ClickService(engine: Engine, connected: bool)

  datatype State = State(click: Option<ClickService>, timer: KeepAlive.Timer)

  /** What the platform does while one call is handled. */
  datatype Platform = Platform(
    dispatch: Dispatch,         // how dispatchGesture treats a click started by the call
    now: int,                   // the clock, in milliseconds
    wakeLockGranted: bool,      // whether acquiring the wake lock succeeds
    timerStartThrows: bool,     // whether starting the timer service throws
    timerStopThrows: bool,      // whether stopping the timer service throws
    settingsThrows: bool)       // whether opening the accessibility settings throws

  datatype Value = Text(text: string) | Flag(flag: bool) | StatsValue(stats: Stats)

  datatype Reply = Success(value: Value) | Error(code: string) | NotImplemented

  /** The reply, the next state, the callback notifications made during the
      call, and the timer service's platform calls. */
  datatype Handled = Handled(host: State, reply: Reply, notices: seq<Notice>, effects: seq<KeepAlive.Effect>)

  /** The callback of a sequence started here, which forwards every
      notification over the method channel. */
  const ChannelListener: Listener := 0
  /** The callback of a simulated click, which only logs. */
  const SilentListener: Listener := 1

  const ServiceNotAvailable: string := "SERVICE_NOT_AVAILABLE"
  const ServiceBusy: string := "SERVICE_BUSY"
  const ExecutionFailed: string := "EXECUTION_FAILED"
  const SimulationFailed: string := "SIMULATION_FAILED"
  const SettingsFailed: string := "SETTINGS_FAILED"
  const ServiceStartFailed: string := "SERVICE_START_FAILED"
  const ServiceStopFailed: string := "SERVICE_STOP_FAILED"

  const Methods: set<string> := {
    "isAvailable", "executeRapidClicks", "simulateClick", "stopExecution", "emergencyStop",
    "getExecutionStats", "openAccessibilitySettings", "startTimerService", "stopTimerService"
  }

  function Unchanged(h: State, reply: Reply): Handled {
    Handled(h, reply, [], [])
  }

  function WithEngine(h: State, e: Engine): State
    requires h.click.Some?
  {
    h.(click := Some(h.click.value.(engine := e)))
  }

  /** The point named by the call; a missing coordinate is 0. */
  function PointOf(a: Args): (p: Point)
    ensures a.x.None? ==> p.x == 0.0
    ensures a.y.None? ==> p.y == 0.0
    ensures a.x.Some? ==> p.x == a.x.value
    ensures a.y.Some? ==> p.y == a.y.value
  {
    Point(a.x.GetOr(0.0), a.y.GetOr(0.0))
  }

  /** The sequence requested by an `executeRapidClicks` call; a missing
      count is 1 and a missing interval 10 ms. */
  function RapidRequest(a: Args): (r: Request)
    ensures r.point == PointOf(a) && r.listener == ChannelListener
    ensures a.count.None? ==> r.total == 1
    ensures a.intervalMs.None? ==> r.intervalMs == 10
    ensures a.count.Some? ==> r.total == a.count.value
    ensures a.intervalMs.Some? ==> r.intervalMs == a.intervalMs.value
  {
    Request(PointOf(a), a.count.GetOr(1), a.intervalMs.GetOr(10), ChannelListener)
  }

  /** `isAvailable`: whether the accessibility service instance exists. It
      answers false exactly when the commands that need the service would
      be rejected with SERVICE_NOT_AVAILABLE. */
  function IsAvailable(h: State): (r: Handled)
    ensures r.host == h && r.notices == [] && r.effects == []
    ensures r.reply.Success? && r.reply.value.Flag?
    ensures r.reply == Success(Flag(false)) <==> StopExecution(h).reply == Error(ServiceNotAvailable)
    ensures forall req: Request, p: Platform ::
              r.reply == Success(Flag(false)) <==> ExecuteRapidClicks(h, req, p).reply == Error(ServiceNotAvailable)
    ensures forall point: Point, p: Platform ::
              r.reply == Success(Flag(false)) <==> SimulateClick(h, point, p).reply == Error(ServiceNotAvailable)
  {
    Unchanged(h, Success(Flag(h.click.Some?)))
  }

  /** `executeRapidClicks`: no service, then a service that is not ready,
      are rejected in that order; otherwise the sequence starts. */
  function ExecuteRapidClicks(h: State, req: Request, p: Platform): (r: Handled)
    ensures r.effects == [] && r.host.timer == h.timer
    ensures h.click.None? ==> r == Unchanged(h, Error(ServiceNotAvailable))
    ensures h.click.Some? && !IsReady(h.click.value.engine, h.click.value.connected) ==>
              r == Unchanged(h, Error(ServiceBusy))
    ensures h.click.Some? && IsReady(h.click.value.engine, h.click.value.connected) ==>
              var o := Clicker.ExecuteRapidClicks(h.click.value.engine, req, p.dispatch);
              && r.host == WithEngine(h, o.engine)
              && r.notices == o.notices
              && r.reply == (if p.dispatch == Threw && req.total > 0 then Error(ExecutionFailed)
                             else Success(Text("Rapid clicks started")))
  {
    match h.click
    case None => Unchanged(h, Error(ServiceNotAvailable))
    case Some(service) =>
      if !IsReady(service.engine, service.connected) then
        Unchanged(h, Error(ServiceBusy))
      else
        var o := Clicker.ExecuteRapidClicks(service.engine, req, p.dispatch);
        Handled(WithEngine(h, o.engine),
                if o.raised then Error(ExecutionFailed) else Success(Text("Rapid clicks started")),
                o.notices, [])
  }

  /** `simulateClick`: needs a service, but not a ready one. */
  function SimulateClick(h: State, point: Point, p: Platform): (r: Handled)
    ensures r.effects == [] && r.host.timer == h.timer
    ensures h.click.None? ==> r == Unchanged(h, Error(ServiceNotAvailable))
    ensures h.click.Some? ==>
              && r.host.click.Some?
              && r.host.click.value.connected == h.click.value.connected
              && r.host.click.value.engine.isExecuting == h.click.value.engine.isExecuting
              && r.host.click.value.engine.executionCount == h.click.value.engine.executionCount
    ensures h.click.Some? ==> (r.reply == Error(SimulationFailed) <==> p.dispatch == Threw)
    ensures h.click.Some? && p.dispatch != Threw ==> r.reply == Success(Text("Click simulated"))
  {
    match h.click
    case None => Unchanged(h, Error(ServiceNotAvailable))
    case Some(service) =>
      var o := Clicker.SimulateClick(service.engine, Probe(point, SilentListener), p.dispatch);
      Handled(WithEngine(h, o.engine),
              if o.raised then Error(SimulationFailed) else Success(Text("Click simulated")),
              o.notices, [])
  }

  /** `stopExecution`. */
  function StopExecution(h: State): (r: Handled)
    ensures r.effects == [] && r.notices == [] && r.host.timer == h.timer
    ensures h.click.None? ==> r == Unchanged(h, Error(ServiceNotAvailable))
    ensures h.click.Some? ==> r.reply == Success(Text("Execution stopped"))
    ensures h.click.Some? ==> r.host.click.Some? && !r.host.click.value.engine.isExecuting
                              && r.host.click.value.engine.pending == []
  {
    match h.click
    case None => Unchanged(h, Error(ServiceNotAvailable))
    case Some(service) =>
      Unchanged(WithEngine(h, Clicker.StopExecution(service.engine)), Success(Text("Execution stopped")))
  }

  /** `emergencyStop`: stops the sequence when a service exists, and stops
      the timer service in every case. */
  function EmergencyStop(h: State, p: Platform): (r: Handled)
    ensures r.notices == []
    ensures r.effects == KeepAlive.OnDestroy(h.timer, p.now).effects
    ensures !r.host.timer.isRunning && r.host.timer.wakeLock == None
    ensures h.click.None? ==> r.reply == Error(ServiceNotAvailable) && r.host.click == None
    ensures h.click.Some? ==> r.reply == Success(Text("Emergency stop activated"))
    ensures h.click.Some? ==> r.host.click.Some? && !r.host.click.value.engine.isExecuting
                              && r.host.click.value.engine.pending == []
  {
    var destroyed := KeepAlive.OnDestroy(h.timer, p.now);
    match h.click
    case None =>
      Handled(h.(timer := destroyed.timer), Error(ServiceNotAvailable), [], destroyed.effects)
    case Some(service) =>
      var stopped := WithEngine(h, Clicker.EmergencyStop(service.engine));
      Handled(stopped.(timer := destroyed.timer), Success(Text("Emergency stop activated")), [], destroyed.effects)
  }

  /** `getExecutionStats`: the service's own snapshot, or a fixed idle one. */
  function GetExecutionStats(h: State): (r: Handled)
    ensures r.host == h && r.notices == [] && r.effects == [] && r.reply.Success? && r.reply.value.StatsValue?
    ensures h.click.None? ==> r.reply.value.stats == Stats(false, 0, false, Some(false))
    ensures h.click.Some? ==>
              r.reply.value.stats == Clicker.GetExecutionStats(h.click.value.engine, h.click.value.connected)
  {
    match h.click
    case None => Unchanged(h, Success(StatsValue(Stats(false, 0, false, Some(false)))))
    case Some(service) => Unchanged(h, Success(StatsValue(Clicker.GetExecutionStats(service.engine, service.connected))))
  }

  /** `openAccessibilitySettings`: only the reply; the settings screen is not part of the model. */
  function OpenAccessibilitySettings(h: State, p: Platform): (r: Handled)
    ensures r.host == h && r.notices == [] && r.effects == []
    ensures r.reply == Error(SettingsFailed) <==> p.settingsThrows
  {
    Unchanged(h, if p.settingsThrows then Error(SettingsFailed) else Success(Text("Accessibility settings opened")))
  }

  /** `startTimerService`. */
  function StartTimerService(h: State, targetTime: int, description: string, p: Platform): (r: Handled)
    ensures r.notices == [] && r.host.click == h.click
    ensures p.timerStartThrows ==> r == Unchanged(h, Error(ServiceStartFailed))
    ensures !p.timerStartThrows ==>
              && r.reply == Success(Text("Timer service started"))
              && r.host.timer.isRunning && r.host.timer.targetTime == targetTime
              && |r.effects| >= 1 && r.effects[0] == KeepAlive.Foreground(description)
              && (p.wakeLockGranted ==>
                    r.host.timer.wakeLock == Some(KeepAlive.WakeLock(p.now + KeepAlive.WakeLockTimeoutMs)))
  {
    if p.timerStartThrows then Unchanged(h, Error(ServiceStartFailed))
    else
      var intent := KeepAlive.StartIntent(Some(targetTime), Some(description));
      var c := KeepAlive.OnStartCommand(h.timer, Some(intent), p.now, p.wakeLockGranted);
      Handled(h.(timer := c.timer), Success(Text("Timer service started")), [], c.effects)
  }

  /** `stopTimerService`. */
  function StopTimerService(h: State, p: Platform): (r: Handled)
    ensures r.notices == [] && r.host.click == h.click
    ensures p.timerStopThrows ==> r == Unchanged(h, Error(ServiceStopFailed))
    ensures !p.timerStopThrows ==>
              && r.reply == Success(Text("Timer service stopped"))
              && !r.host.timer.isRunning && r.host.timer.wakeLock == None
              && r.effects == KeepAlive.OnDestroy(h.timer, p.now).effects
  {
    if p.timerStopThrows then Unchanged(h, Error(ServiceStopFailed))
    else
      var c := KeepAlive.OnDestroy(h.timer, p.now);
      Handled(h.(timer := c.timer), Success(Text("Timer service stopped")), [], c.effects)
  }

  /** The `when` over the method name, with the argument defaults. */
  function Handle(h: State, call: MethodCall, p: Platform): (r: Handled)
    ensures call.name !in Methods ==> r == Unchanged(h, NotImplemented)
    ensures call.name in Methods ==> !r.reply.NotImplemented?
    ensures call.name == "executeRapidClicks" ==> r == ExecuteRapidClicks(h, RapidRequest(call.args), p)
    ensures call.name == "simulateClick" ==> r == SimulateClick(h, PointOf(call.args), p)
    ensures call.name == "startTimerService" ==>
              r == StartTimerService(h, call.args.targetTime.GetOr(0),
                                     call.args.description.GetOr(KeepAlive.DefaultDescription), p)
  {
    var a := call.args;
    match call.name
    case "isAvailable" => IsAvailable(h)
    case "executeRapidClicks" => ExecuteRapidClicks(h, RapidRequest(a), p)
    case "simulateClick" => SimulateClick(h, PointOf(a), p)
    case "stopExecution" => StopExecution(h)
    case "emergencyStop" => EmergencyStop(h, p)
    case "getExecutionStats" => GetExecutionStats(h)
    case "openAccessibilitySettings" => OpenAccessibilitySettings(h, p)
    case "startTimerService" =>
      StartTimerService(h, a.targetTime.GetOr(0), a.description.GetOr(KeepAlive.DefaultDescription), p)
    case "stopTimerService" => StopTimerService(h, p)
    case _ => Unchanged(h, NotImplemented)
  }

  // ---------------------------------------------------------------------
  // Properties of the command surface

  /** With a connected service present, a start is refused as busy exactly
      when a sequence is executing, and the refusal leaves everything as it was. */
  lemma BusyExactlyWhileExecuting(h: State, a: Args, p: Platform)
    requires h.click.Some? && h.click.value.connected
    ensures var r := Handle(h, MethodCall("executeRapidClicks", a), p);
            && (r.reply == Error(ServiceBusy) <==> h.click.value.engine.isExecuting)
            && (h.click.value.engine.isExecuting ==> r.host == h && r.notices == [])
  {
  }

  /** A start call with no arguments and an accepted first click runs one
      click at (0, 0) with a 10 ms interval, reported over the channel. */
  lemma RapidClickDefaults(h: State, p: Platform)
    requires h.click.Some? && IsReady(h.click.value.engine, h.click.value.connected)
    requires p.dispatch == Accepted
    ensures var r := Handle(h, MethodCall("executeRapidClicks", NoArgs), p);
            var e := h.click.value.engine;
            && r.reply == Success(Text("Rapid clicks started"))
            && r.host.click.Some?
            && r.host.click.value.engine ==
                 e.(isExecuting := true, executionCount := 0,
                    inFlight := e.inFlight + [Request(Point(0.0, 0.0), 1, 10, ChannelListener)])
  {
  }

  /** A timer start with no arguments counts down to time 0 and shows
      "Countdown Active". */
  lemma TimerDefaults(h: State, p: Platform)
    requires !p.timerStartThrows
    ensures var r := Handle(h, MethodCall("startTimerService", NoArgs), p);
            && r.host.timer.isRunning && r.host.timer.targetTime == 0
            && r.effects[0] == KeepAlive.Foreground("Countdown Active")
  {
  }

  /** The emergency stop ends the timer service whether or not the
      accessibility service exists, and reports the missing service. */
  lemma EmergencyStopAlwaysStopsTimer(h: State, a: Args, p: Platform)
    ensures var r := Handle(h, MethodCall("emergencyStop", a), p);
            && !r.host.timer.isRunning && r.host.timer.wakeLock == None
            && (r.reply.Success? <==> h.click.Some?)
  {
  }

  /** `isAvailable` and the fallback of `getExecutionStats` agree: the stats
      report the service unavailable exactly when `isAvailable` is false. */
  lemma AvailabilityAgrees(h: State, a: Args, p: Platform)
    ensures var avail := Handle(h, MethodCall("isAvailable", a), p);
            var stats := Handle(h, MethodCall("getExecutionStats", a), p);
            && avail.reply == Success(Flag(h.click.Some?))
            && (stats.reply.value.stats.serviceAvailable == Some(false) <==> avail.reply == Success(Flag(false)))
  {
  }

  /** No command other than the emergency stop and the timer commands
      touches the timer service. */
  lemma ClickCommandsLeaveTimer(h: State, call: MethodCall, p: Platform)
    requires call.name !in {"emergencyStop", "startTimerService", "stopTimerService"}
    ensures Handle(h, call, p).host.timer == h.timer
    ensures Handle(h, call, p).effects == []
  {
  }
}
