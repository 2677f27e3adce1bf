/**
 * `TimerService` as an object whose methods update its fields in place, as the service's
 * methods do on the main looper. Platform calls are appended to the ghost `log`.
 * Every method is proved to take the step the function of the same name in TimerSteps
 * describes; the properties of those steps are proved there and in TimerProperties.
 */
module Services {
  import opened Wrappers
  import opened KotlinInt
  import opened TimerSteps

  class TimerService {
    var serviceState: TimerState
    var currentTime: Int32
    var startedAtTimestamp: Int32
    /** Tick callbacks posted to the main looper's handler and not yet run. */
    var pendingTicks: nat
    /** Whether `job.cancel()` has been called. */
    var jobCancelled: bool
    /** The platform effects so far, oldest first. */
    ghost var log: seq<Event>

    /** The fields as a value. */
    function View(): Snapshot
      reads this
    {
      Snapshot(serviceState, currentTime, startedAtTimestamp, pendingTicks, jobCancelled)
    }

    /** A new service: INITIALIZED, both counters 0, no callback posted, the job active. */
    constructor ()
      ensures View() == Initial && log == []
    {
      serviceState := Initialized;
      currentTime := 0;
      startedAtTimestamp := 0;
      pendingTicks := 0;
      jobCancelled := false;
      log := [];
    }

    /** The custom setter of `startedAtTimestamp`: it writes `currentTime` too. */
    method SetStartedAtTimestamp(value: Int32)
      modifies this`currentTime, this`startedAtTimestamp
      ensures View() == TimerSteps.SetStartedAtTimestamp(old(View()), value)
      ensures currentTime == startedAtTimestamp == value
    {
      currentTime := value;
      startedAtTimestamp := value;
    }

    /** The looper runs the posted `runnable` once; it then posts itself again. */
    method Tick()
      requires pendingTicks > 0
      modifies this
      ensures View() == TimerSteps.Tick(old(View())).after
      ensures log == old(log) + TimerSteps.Tick(old(View())).events
    {
      pendingTicks := pendingTicks - 1;  // taken off the looper's queue
      currentTime := Inc(currentTime);
      BroadcastUpdate();
      pendingTicks := pendingTicks + 1;  // handler.postDelayed(this, 1000)
    }

    method OnStartCommand(delivery: Delivery) returns (outcome: Outcome)
      modifies this
      ensures outcome == TimerSteps.OnStartCommand(old(View()), delivery).outcome
      ensures outcome.Returned? ==> outcome.flag == START_NOT_STICKY
      ensures View() == TimerSteps.OnStartCommand(old(View()), delivery).step.after
      ensures log == old(log) + TimerSteps.OnStartCommand(old(View()), delivery).step.events
    {
      match delivery {
        case NoExtras =>
        case Extras(None) =>
          return CastException;
        case Extras(Some(command)) =>
          match command {
            case Start => StartTimer(None);
            case Pause => PauseTimerService();
            case Stop => EndTimerService();
            case Initialized => return Returned(START_NOT_STICKY);
          }
      }
      return Returned(START_NOT_STICKY);
    }

    method OnDestroy()
      modifies this
      ensures View() == TimerSteps.OnDestroy(old(View())).after
      ensures log == old(log) + TimerSteps.OnDestroy(old(View())).events
    {
      pendingTicks := 0;  // handler.removeCallbacks(runnable)
      jobCancelled := true;
      log := log + [JobCancelled];
    }

    method StartTimer(elapsedTime: Option<Int32>)
      modifies this
      ensures View() == TimerSteps.StartTimer(old(View()), elapsedTime).after
      ensures log == old(log) + TimerSteps.StartTimer(old(View()), elapsedTime).events
    {
      serviceState := Start;
      SetStartedAtTimestamp(elapsedTime.GetOr(0));
      log := log + [StartForeground(NOTIFICATION_ID)];
      BroadcastUpdate();
      StartCoroutineTimer();
    }

    method BroadcastUpdate()
      modifies this`log
      ensures log == old(log) + TimerSteps.BroadcastUpdate(View())
    {
      if serviceState == Start {
        var elapsedTime := Minus(currentTime, startedAtTimestamp);
        log := log + [Broadcast(elapsedTime)];
        log := log + [NotifyText(TimeIsRunning(elapsedTime))];
      } else if serviceState == Pause {
        log := log + [NotifyText(GetBack)];
      }
    }

    method PauseTimerService()
      modifies this
      ensures View() == TimerSteps.PauseTimerService(old(View())).after
      ensures log == old(log) + TimerSteps.PauseTimerService(old(View())).events
    {
      serviceState := Pause;
      pendingTicks := 0;  // handler.removeCallbacks(runnable)
      BroadcastUpdate();
    }

    method EndTimerService()
      modifies this
      ensures View() == TimerSteps.EndTimerService(old(View())).after
      ensures log == old(log) + TimerSteps.EndTimerService(old(View())).events
    {
      serviceState := Stop;
      pendingTicks := 0;  // handler.removeCallbacks(runnable)
      jobCancelled := true;
      log := log + [JobCancelled];
      BroadcastUpdate();  // emits nothing in STOP
      assert log == old(log) + [JobCancelled];
      StopService();
    }

    method StopService()
      modifies this`log
      ensures log == old(log) + TimerSteps.StopService()
    {
      log := log + [StopForeground(true)];
      log := log + [StopSelf];
    }

    /** The launched coroutine posts the runnable, unless the job is already cancelled. */
    method StartCoroutineTimer()
      modifies this`pendingTicks
      ensures View() == TimerSteps.StartCoroutineTimer(old(View()))
    {
      if !jobCancelled {
        pendingTicks := pendingTicks + 1;  // handler.post(runnable)
      }
    }
  }
}
