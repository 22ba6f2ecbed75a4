/** The keep-alive foreground service (TimerForegroundService.kt) as pure
    functions over an immutable `Timer` record.

    The partial wake lock is acquired with a timeout, after which the
    platform releases it by itself; it is modelled by that deadline and is
    held exactly while the current time is before it. Each function returns
    the next state and the platform calls it made, in order. */
module KeepAlive {
  import opened Basics

  /** The timeout passed to `acquire`: 30 minutes, in milliseconds. */
  const WakeLockTimeoutMs: int := 30 * 60 * 1000

  const DefaultDescription: string := "Countdown Active"
  const RemainingPrefix: string := "Time remaining: "

  datatype WakeLock = WakeLock(deadline: int)

  datatype Timer = Timer(isRunning: bool, targetTime: int, wakeLock: Option<WakeLock>)

  /** The extras of the intent that starts the service; a missing extra is `None`. */
  datatype StartIntent = StartIntent(targetTime: Option<int>, description: Option<string>)

  /** Platform calls the service makes. */
  datatype Effect =
    | Foreground(text: string)     // startForeground with a notification showing `text`
    | Acquired(lock: WakeLock)     // acquire(timeout) succeeded
    | Released(lock: WakeLock)     // release()
    | Notified(text: string)       // notify with a notification showing `text`

  datatype Change = Change(timer: Timer, effects: seq<Effect>)

  /** The fields of a newly created service. */
  const Created: Timer := Timer(false, 0, None)

  /** `isHeld`: a lock acquired with a timeout stops being held at its deadline. */
  predicate IsHeld(lock: WakeLock, now: int) {
    now < lock.deadline
  }

  /** `acquireWakeLock`. The new lock is stored only once `acquire` has
      returned, so when the platform throws the previous reference stays. */
  function AcquireWakeLock(t: Timer, now: int, granted: bool): (c: Change)
    ensures c.timer.isRunning == t.isRunning && c.timer.targetTime == t.targetTime
    ensures granted ==> c.timer.wakeLock == Some(WakeLock(now + 1_800_000))
    ensures granted ==> c.effects == [Acquired(WakeLock(now + 1_800_000))]
    ensures granted ==> IsHeld(c.timer.wakeLock.value, now)
    ensures !granted ==> c == Change(t, [])
  {
    if granted then
      var lock := WakeLock(now + WakeLockTimeoutMs);
      Change(t.(wakeLock := Some(lock)), [Acquired(lock)])
    else
      Change(t, [])
  }

  /** `onStartCommand`. A null intent does nothing; otherwise the service
      goes to the foreground, tries to take the wake lock and runs, whether
      or not the lock was granted. */
  function OnStartCommand(t: Timer, intent: Option<StartIntent>, now: int, granted: bool): (c: Change)
    ensures intent.None? ==> c == Change(t, [])
    ensures intent.Some? ==> c.timer.isRunning
    ensures intent.Some? ==> c.timer.targetTime == intent.value.targetTime.GetOr(0)
    ensures intent.Some? ==> |c.effects| >= 1
                             && c.effects[0] == Foreground(intent.value.description.GetOr(DefaultDescription))
    ensures intent.Some? && granted ==>
              c.timer.wakeLock == Some(WakeLock(now + WakeLockTimeoutMs))
              && c.effects[1..] == [Acquired(WakeLock(now + WakeLockTimeoutMs))]
    // degraded mode: running without a new lock, and the old reference kept
    ensures intent.Some? && !granted ==> c.timer.wakeLock == t.wakeLock && |c.effects| == 1
  {
    match intent
    case None => Change(t, [])
    case Some(it) =>
      var started := t.(targetTime := it.targetTime.GetOr(0));
      var shown := Foreground(it.description.GetOr(DefaultDescription));
      var acquired := AcquireWakeLock(started, now, granted);
      Change(acquired.timer.(isRunning := true), [shown] + acquired.effects)
  }

  /** `releaseWakeLock`: calls `release` only on a lock still held, then
      drops the reference in every case. */
  function ReleaseWakeLock(t: Timer, now: int): (c: Change)
    ensures c.timer == t.(wakeLock := None)
    ensures t.wakeLock.Some? && IsHeld(t.wakeLock.value, now) ==> c.effects == [Released(t.wakeLock.value)]
    ensures t.wakeLock.None? || !IsHeld(t.wakeLock.value, now) ==> c.effects == []
  {
    match t.wakeLock
    case Some(lock) =>
      Change(t.(wakeLock := None), if IsHeld(lock, now) then [Released(lock)] else [])
    case None => Change(t, [])
  }

  /** `onDestroy`. */
  function OnDestroy(t: Timer, now: int): (c: Change)
    ensures !c.timer.isRunning && c.timer.wakeLock == None
    ensures c.timer.targetTime == t.targetTime
    // `release` is called once, on the stored lock, exactly when it is still held
    ensures c.effects == if t.wakeLock.Some? && IsHeld(t.wakeLock.value, now)
                         then [Released(t.wakeLock.value)] else []
  {
    var released := ReleaseWakeLock(t, now);
    Change(released.timer.(isRunning := false), released.effects)
  }

  /** `updateNotification`: republishes the remaining time, only while running. */
  function UpdateNotification(t: Timer, timeRemaining: string): (c: Change)
    ensures c.timer == t
    ensures !t.isRunning ==> c.effects == []
    ensures t.isRunning ==> c.effects == [Notified(RemainingPrefix + timeRemaining)]
  {
    if !t.isRunning then Change(t, [])
    else Change(t, [Notified(RemainingPrefix + timeRemaining)])
  }

  /** `isServiceRunning`. */
  function IsServiceRunning(t: Timer): (running: bool)
    ensures running <==> t.isRunning
    // a stopped service ignores every notification update
    ensures !running ==> forall s: string :: UpdateNotification(t, s) == Change(t, [])
  {
    t.isRunning
  }

  // ---------------------------------------------------------------------
  // Properties of the lifecycle

  /** A lock reference is only ever kept by a running service. */
  predicate Consistent(t: Timer) {
    t.wakeLock.Some? ==> t.isRunning
  }

  lemma CreatedIsConsistent()
    ensures Consistent(Created) && !IsServiceRunning(Created)
  {
  }

  /** Every operation keeps the service consistent. */
  lemma OperationsKeepConsistency(t: Timer, intent: Option<StartIntent>, now: int, granted: bool, text: string)
    requires Consistent(t)
    ensures Consistent(OnStartCommand(t, intent, now, granted).timer)
    ensures Consistent(OnDestroy(t, now).timer)
    ensures Consistent(UpdateNotification(t, text).timer)
  {
  }

  /** Destroying twice is safe: the second destroy changes nothing and
      releases nothing. */
  lemma DestroyIsIdempotent(t: Timer, now: int, later: int)
    ensures var first := OnDestroy(t, now);
            OnDestroy(first.timer, later) == Change(first.timer, [])
  {
  }

  /** Start then destroy, before the deadline: the lock taken is the lock
      released, and the service ends stopped with no reference. */
  lemma StartThenDestroy(t: Timer, intent: StartIntent, now: int, later: int)
    requires now <= later < now + WakeLockTimeoutMs
    ensures var started := OnStartCommand(t, Some(intent), now, true);
            var destroyed := OnDestroy(started.timer, later);
            && Acquired(WakeLock(now + WakeLockTimeoutMs)) in started.effects
            && destroyed.effects == [Released(WakeLock(now + WakeLockTimeoutMs))]
            && !destroyed.timer.isRunning && destroyed.timer.wakeLock == None
  {
    var started := OnStartCommand(t, Some(intent), now, true);
    assert started.effects[1] == Acquired(WakeLock(now + WakeLockTimeoutMs));
  }

  /** After the 30-minute timeout the platform has already released the
      lock, so destroying calls `release` no more. */
  lemma DestroyAfterTimeout(t: Timer, intent: StartIntent, now: int, later: int)
    requires later >= now + WakeLockTimeoutMs
    ensures var started := OnStartCommand(t, Some(intent), now, true);
            OnDestroy(started.timer, later) == Change(started.timer.(isRunning := false, wakeLock := None), [])
  {
  }

  /** A refused lock does not stop the countdown: the service runs without one. */
  lemma DegradedStart(intent: StartIntent, now: int)
    ensures var c := OnStartCommand(Created, Some(intent), now, false);
            c.timer.isRunning && c.timer.wakeLock == None && |c.effects| == 1 && c.effects[0].Foreground?
  {
  }

  /** A second start overwrites the reference: a later destroy releases only
      the second lock, and the first one, still held, is never released by
      the service. */
  lemma SecondStartLeaksFirstLock(t: Timer, i1: StartIntent, i2: StartIntent, n1: int, n2: int, n3: int)
    requires n1 < n2 <= n3 < n1 + WakeLockTimeoutMs
    ensures var s1 := OnStartCommand(t, Some(i1), n1, true);
            var s2 := OnStartCommand(s1.timer, Some(i2), n2, true);
            var d := OnDestroy(s2.timer, n3);
            var first := WakeLock(n1 + WakeLockTimeoutMs);
            && Acquired(first) in s1.effects
            && d.effects == [Released(WakeLock(n2 + WakeLockTimeoutMs))]
            && Released(first) !in s1.effects + s2.effects + d.effects
            && IsHeld(first, n3)
  {
    var s1 := OnStartCommand(t, Some(i1), n1, true);
    assert s1.effects[1] == Acquired(WakeLock(n1 + WakeLockTimeoutMs));
  }
}
