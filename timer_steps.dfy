/**
 * The stopwatch of `TimerService` as pure steps over a snapshot of the service's fields.
 * Each step gives the fields afterwards and the platform effects it causes, in order.
 * The class in module Services is proved against these functions.
 */
module TimerSteps {
  import opened Wrappers
  import opened KotlinInt

  /** `NotificationHelper.NOTIFICATION_ID`: the one notification the service posts and updates. */
  const NOTIFICATION_ID: int := 99

  /** Android's `Service.START_NOT_STICKY` restart hint. */
  const START_NOT_STICKY: int := 2

  /** The app's `TimerState` enum; INITIALIZED is the state before any command. */
  datatype TimerState = Initialized | Start | Pause | Stop

  /**
   * The body text handed to `helper.updateNotification`. The string resources and the
   * `secondsToTime` formatting are not visible, so only the message and its argument are kept.
   */
  datatype NotificationText =
    | TimeIsRunning(elapsed: Int32)  // R.string.time_is_running with secondsToTime(elapsed)
    | GetBack                        // R.string.get_back

  /** A platform effect of the service, in the order it happens. */
  datatype Event =
    | StartForeground(notificationId: int)      // startForeground(NOTIFICATION_ID, ...)
    | Broadcast(elapsed: Int32)                 // sendBroadcast of TIMER_ACTION with the elapsed time
    | NotifyText(text: NotificationText)        // helper.updateNotification(text)
    | StopForeground(removeNotification: bool)  // stopForeground(...)
    | StopSelf                                  // stopSelf()
    | JobCancelled                              // job.cancel()

  /**
   * What `onStartCommand` finds in its intent. `NoExtras`: the intent or its extras are null.
   * `Extras(None)`: the extras hold no `TimerState` under SERVICE_COMMAND, so the cast throws.
   */
  datatype Delivery = NoExtras | Extras(command: Option<TimerState>)

  /** How `onStartCommand` ends: it returns a restart flag, or the unchecked cast throws. */
  datatype Outcome = Returned(flag: int) | CastException

  /**
   * The service's fields. The main looper's queue is reduced to the number of tick callbacks
   * posted and not yet run; the coroutine `Job` is reduced to whether it was cancelled.
   */
  datatype Snapshot = Snapshot(
    serviceState: TimerState,
    currentTime: Int32,
    startedAtTimestamp: Int32,
    pendingTicks: nat,
    jobCancelled: bool)

  datatype Step = Step(after: Snapshot, events: seq<Event>)

  datatype Handled = Handled(step: Step, outcome: Outcome)

  /** A freshly created service: INITIALIZED, both counters 0, nothing posted, job active. */
  const Initial: Snapshot := Snapshot(Initialized, 0, 0, 0, false)

  /** The elapsed time `broadcastUpdate` reports: `currentTime - startedAtTimestamp` as an `Int`. */
  function Elapsed(s: Snapshot): Int32 {
    Minus(s.currentTime, s.startedAtTimestamp)
  }

  /** The elapsed values broadcast to the activity, in order. */
  function Broadcasts(events: seq<Event>): (r: seq<int>)
    ensures |r| <= |events|
  {
    if events == [] then []
    else (if events[0].Broadcast? then [events[0].elapsed as int] else []) + Broadcasts(events[1..])
  }

  lemma {:induction false} BroadcastsAppend(a: seq<Event>, b: seq<Event>)
    ensures Broadcasts(a + b) == Broadcasts(a) + Broadcasts(b)
    decreases |a|
  {
    if a != [] {
      assert (a + b)[0] == a[0];
      assert (a + b)[1..] == a[1..] + b;
      BroadcastsAppend(a[1..], b);
    } else {
      assert a + b == b;
    }
  }

  /** The setter of `startedAtTimestamp`, which also overwrites `currentTime`. */
  function SetStartedAtTimestamp(s: Snapshot, value: Int32): (r: Snapshot)
    ensures r.startedAtTimestamp == value && r.currentTime == value && Elapsed(r) == 0
    ensures r.serviceState == s.serviceState && r.pendingTicks == s.pendingTicks
    ensures r.jobCancelled == s.jobCancelled
  {
    s.(startedAtTimestamp := value, currentTime := value)
  }

  /**
   * `broadcastUpdate`: in START the elapsed time goes to the activity and into the notification;
   * in PAUSE only the "get back" text is set; in INITIALIZED and STOP nothing happens.
   */
  function BroadcastUpdate(s: Snapshot): (events: seq<Event>)
    ensures Broadcasts(events) == if s.serviceState == Start then [Elapsed(s) as int] else []
    ensures NotifyText(GetBack) in events <==> s.serviceState == Pause
    ensures events == [] <==> (s.serviceState == Initialized || s.serviceState == Stop)
    ensures s.serviceState == Start ==> NotifyText(TimeIsRunning(Elapsed(s))) in events
    ensures s.serviceState == Pause ==> events == [NotifyText(GetBack)]
  {
    match s.serviceState
    case Start =>
      var elapsedTime := Elapsed(s);
      [Broadcast(elapsedTime), NotifyText(TimeIsRunning(elapsedTime))]
    case Pause => [NotifyText(GetBack)]
    case Initialized => []
    case Stop => []
  }

  /**
   * `startCoroutineTimer`: a coroutine posts the tick callback. A coroutine launched under a
   * cancelled job never runs, so then nothing is posted.
   */
  function StartCoroutineTimer(s: Snapshot): (r: Snapshot)
    ensures r.pendingTicks == s.pendingTicks + (if s.jobCancelled then 0 else 1)
    ensures r.(pendingTicks := s.pendingTicks) == s
  {
    if s.jobCancelled then s else s.(pendingTicks := s.pendingTicks + 1)
  }

  /**
   * `startTimer(elapsedTime)`: state START, both counters set to the offset (0 when absent),
   * foreground notification, an immediate update, one more tick posted.
   */
  function StartTimer(s: Snapshot, elapsedTime: Option<Int32>): (r: Step)
    ensures r.after.serviceState == Start
    ensures r.after.startedAtTimestamp == elapsedTime.GetOr(0) && r.after.currentTime == elapsedTime.GetOr(0)
    ensures r.after.pendingTicks == s.pendingTicks + (if s.jobCancelled then 0 else 1)
    ensures r.after.jobCancelled == s.jobCancelled
    ensures r.events == [StartForeground(NOTIFICATION_ID), Broadcast(0), NotifyText(TimeIsRunning(0))]
    ensures Broadcasts(r.events) == [0]
  {
    var started := SetStartedAtTimestamp(s.(serviceState := Start), elapsedTime.GetOr(0));
    BroadcastsAppend([StartForeground(NOTIFICATION_ID)], BroadcastUpdate(started));
    Step(StartCoroutineTimer(started), [StartForeground(NOTIFICATION_ID)] + BroadcastUpdate(started))
  }

  /**
   * The looper runs one posted tick callback: `currentTime++`, an update, and the callback
   * posts itself again.
   */
  function Tick(s: Snapshot): (r: Step)
    requires s.pendingTicks > 0
    ensures r.after.serviceState == s.serviceState && r.after.startedAtTimestamp == s.startedAtTimestamp
    ensures r.after.pendingTicks == s.pendingTicks && r.after.jobCancelled == s.jobCancelled
    ensures r.after.currentTime == Inc(s.currentTime)
    ensures s.currentTime as int < INT_MAX ==> r.after.currentTime as int == s.currentTime as int + 1
    ensures r.events == BroadcastUpdate(r.after)
  {
    var dequeued := s.(pendingTicks := s.pendingTicks - 1);
    var counted := dequeued.(currentTime := Inc(s.currentTime));
    Step(counted.(pendingTicks := counted.pendingTicks + 1), BroadcastUpdate(counted))
  }

  /** `pauseTimerService`: state PAUSE, every posted tick removed, counters kept, "get back" text. */
  function PauseTimerService(s: Snapshot): (r: Step)
    ensures r.after.serviceState == Pause && r.after.pendingTicks == 0
    ensures r.after.currentTime == s.currentTime && r.after.startedAtTimestamp == s.startedAtTimestamp
    ensures r.after.jobCancelled == s.jobCancelled
    ensures Elapsed(r.after) == Elapsed(s)
    ensures r.events == [NotifyText(GetBack)] && Broadcasts(r.events) == []
  {
    var paused := s.(serviceState := Pause, pendingTicks := 0);
    Step(paused, BroadcastUpdate(paused))
  }

  /** `stopService`: leave the foreground, removing the notification, then stop. */
  function StopService(): (events: seq<Event>)
    ensures |events| == 2 && events[0].StopForeground? && events[0].removeNotification
    ensures events[1] == StopSelf
  {
    [StopForeground(true), StopSelf]
  }

  /**
   * `endTimerService`: state STOP, ticks removed, job cancelled; the update it asks for
   * emits nothing in STOP; then the service stops.
   */
  function EndTimerService(s: Snapshot): (r: Step)
    ensures r.after.serviceState == Stop && r.after.pendingTicks == 0 && r.after.jobCancelled
    ensures r.after.currentTime == s.currentTime && r.after.startedAtTimestamp == s.startedAtTimestamp
    ensures Broadcasts(r.events) == [] && NotifyText(GetBack) !in r.events
    ensures r.events == [JobCancelled, StopForeground(true), StopSelf]
  {
    var stopped := s.(serviceState := Stop, pendingTicks := 0, jobCancelled := true);
    Step(stopped, [JobCancelled] + BroadcastUpdate(stopped) + StopService())
  }

  /** `onDestroy`: every posted tick removed and the job cancelled, whatever the state. */
  function OnDestroy(s: Snapshot): (r: Step)
    ensures r.after.pendingTicks == 0 && r.after.jobCancelled
    ensures r.after.serviceState == s.serviceState
    ensures r.after.currentTime == s.currentTime && r.after.startedAtTimestamp == s.startedAtTimestamp
    ensures r.events == [JobCancelled]
  {
    Step(s.(pendingTicks := 0, jobCancelled := true), [JobCancelled])
  }

  /**
   * `onStartCommand`: START, PAUSE and STOP are dispatched, `startTimer` always without an
   * offset. Every path that returns gives START_NOT_STICKY; only the failed cast throws.
   */
  function OnStartCommand(s: Snapshot, delivery: Delivery): (r: Handled)
    ensures r.outcome == if delivery == Extras(None) then CastException else Returned(START_NOT_STICKY)
    ensures delivery in {NoExtras, Extras(None), Extras(Some(Initialized))} ==> r.step == Step(s, [])
    ensures delivery == Extras(Some(Start)) ==> r.step == StartTimer(s, None)
    ensures delivery == Extras(Some(Pause)) ==> r.step == PauseTimerService(s)
    ensures delivery == Extras(Some(Stop)) ==> r.step == EndTimerService(s)
  {
    match delivery
    case NoExtras => Handled(Step(s, []), Returned(START_NOT_STICKY))
    case Extras(None) => Handled(Step(s, []), CastException)
    case Extras(Some(command)) =>
      match command
      case Start => Handled(StartTimer(s, None), Returned(START_NOT_STICKY))
      case Pause => Handled(PauseTimerService(s), Returned(START_NOT_STICKY))
      case Stop => Handled(EndTimerService(s), Returned(START_NOT_STICKY))
      case Initialized => Handled(Step(s, []), Returned(START_NOT_STICKY))
  }
}
