/**
 * What the service does over a whole run: the platform delivers commands, runs posted tick
 * callbacks and destroys the service, in any order.
 */
module TimerProperties {
  import opened Wrappers
  import opened KotlinInt
  import opened TimerSteps

  /** One thing the platform does to the service. */
  datatype Input =
    | Command(delivery: Delivery)  // onStartCommand with this intent
    | Fire                         // the looper runs a posted tick callback, if there is one
    | Destroy                      // onDestroy

  /** One input; None when `onStartCommand` throws, which ends the process. */
  function Apply(s: Snapshot, input: Input): Option<Step> {
    match input
    case Command(delivery) =>
      var handled := OnStartCommand(s, delivery);
      if handled.outcome == CastException then None else Some(handled.step)
    case Fire => if s.pendingTicks > 0 then Some(Tick(s)) else Some(Step(s, []))
    case Destroy => Some(OnDestroy(s))
  }

  /** The inputs in order, up to the first one that throws. */
  function Run(s: Snapshot, inputs: seq<Input>): Step
    decreases |inputs|
  {
    if inputs == [] then Step(s, [])
    else
      match Apply(s, inputs[0])
      case None => Step(s, [])
      case Some(first) =>
        var rest := Run(first.after, inputs[1..]);
        Step(rest.after, first.events + rest.events)
  }

  /**
   * The looper running a posted tick callback n times. With exactly one callback posted these
   * are n seconds; with more posted, each second runs one per callback.
   */
  function Fires(n: nat): (r: seq<Input>)
    ensures |r| == n
  {
    if n == 0 then [] else [Fire] + Fires(n - 1)
  }

  const StartCommand: Input := Command(Extras(Some(Start)))
  const PauseCommand: Input := Command(Extras(Some(Pause)))
  const StopCommand: Input := Command(Extras(Some(Stop)))

  /** A run that starts with an input that does not throw: that input, then the rest. */
  lemma RunCons(s: Snapshot, input: Input, rest: seq<Input>)
    requires Apply(s, input).Some?
    ensures var first := Apply(s, input).value;
      Run(s, [input] + rest)
        == Step(Run(first.after, rest).after, first.events + Run(first.after, rest).events)
  {
  }

  /** first, first + 1, ..., first + n - 1 */
  function CountFrom(first: int, n: nat): (r: seq<int>)
    ensures |r| == n
    decreases n
  {
    if n == 0 then [] else [first] + CountFrom(first + 1, n - 1)
  }

  lemma {:induction false} CountFromAt(first: int, n: nat, i: nat)
    requires i < n
    ensures CountFrom(first, n)[i] == first + i
    decreases n
  {
    if i > 0 {
      CountFromAt(first + 1, n - 1, i - 1);
    }
  }

  /** n tick callbacks run one after the other; each re-posts itself, so one stays posted. */
  function Ticks(s: Snapshot, n: nat): (r: Step)
    requires s.pendingTicks > 0
    decreases n
  {
    if n == 0 then Step(s, [])
    else
      var first := Tick(s);
      var rest := Ticks(first.after, n - 1);
      Step(rest.after, first.events + rest.events)
  }

  /** While a tick callback is posted, n callback runs are exactly n ticks, since each re-posts itself. */
  lemma {:induction false} RunFiresIsTicks(s: Snapshot, n: nat)
    requires s.pendingTicks > 0
    ensures Run(s, Fires(n)) == Ticks(s, n)
    decreases n
  {
    if n > 0 {
      assert Apply(s, Fire) == Some(Tick(s));
      RunCons(s, Fire, Fires(n - 1));
      RunFiresIsTicks(Tick(s).after, n - 1);
    }
  }

  /** While started from a zero baseline, a tick below `Int.MAX_VALUE` broadcasts the new count. */
  lemma TickBroadcastsNext(s: Snapshot)
    requires s.serviceState == Start && s.pendingTicks > 0 && s.startedAtTimestamp == 0
    requires 0 <= s.currentTime as int < INT_MAX
    ensures Tick(s).after == s.(currentTime := s.currentTime + 1)
    ensures Tick(s).events == [Broadcast(s.currentTime + 1), NotifyText(TimeIsRunning(s.currentTime + 1))]
  {
  }

  /** While the timer runs, n ticks change nothing but `currentTime`, which grows by n. */
  lemma {:induction false} TicksKeepCounting(s: Snapshot, n: nat)
    requires s.serviceState == Start && s.pendingTicks > 0 && s.startedAtTimestamp == 0
    requires 0 <= s.currentTime as int && s.currentTime as int + n <= INT_MAX
    ensures Ticks(s, n).after == s.(currentTime := (s.currentTime as int + n) as Int32)
    decreases n
  {
    if n > 0 {
      TickBroadcastsNext(s);
      TicksKeepCounting(Tick(s).after, n - 1);
    }
  }

  /** The effects of n running ticks after the count `c`: each broadcasts and shows the next count. */
  function RunningEvents(c: int, n: nat): (r: seq<Event>)
    requires 0 <= c && c + n <= INT_MAX
    ensures |r| == 2 * n
    decreases n
  {
    if n == 0 then []
    else
      var next := (c + 1) as Int32;
      [Broadcast(next), NotifyText(TimeIsRunning(next))] + RunningEvents(c + 1, n - 1)
  }

  /** While the timer runs from a zero baseline, n ticks emit exactly `RunningEvents`. */
  lemma {:induction false} TicksEmitRunning(s: Snapshot, n: nat)
    requires s.serviceState == Start && s.pendingTicks > 0 && s.startedAtTimestamp == 0
    requires 0 <= s.currentTime as int && s.currentTime as int + n <= INT_MAX
    ensures Ticks(s, n).events == RunningEvents(s.currentTime as int, n)
    decreases n
  {
    if n > 0 {
      TickBroadcastsNext(s);
      TicksEmitRunning(Tick(s).after, n - 1);
    }
  }

  lemma {:induction false} RunningCountsUp(c: int, n: nat)
    requires 0 <= c && c + n <= INT_MAX
    ensures Broadcasts(RunningEvents(c, n)) == CountFrom(c + 1, n)
    decreases n
  {
    if n > 0 {
      var next := (c + 1) as Int32;
      var shown: seq<Event> := [NotifyText(TimeIsRunning(next))];
      BroadcastsAppend([Broadcast(next)] + shown, RunningEvents(c + 1, n - 1));
      BroadcastsAppend([Broadcast(next)], shown);
      RunningCountsUp(c + 1, n - 1);
    }
  }

  /**
   * While the timer runs, n ticks count the elapsed time up by one each: the broadcasts are
   * currentTime + 1, ..., currentTime + n.
   */
  lemma TicksCountUp(s: Snapshot, n: nat)
    requires s.serviceState == Start && s.pendingTicks > 0 && s.startedAtTimestamp == 0
    requires 0 <= s.currentTime as int && s.currentTime as int + n <= INT_MAX
    ensures Broadcasts(Ticks(s, n).events) == CountFrom(s.currentTime as int + 1, n)
  {
    TicksEmitRunning(s, n);
    RunningCountsUp(s.currentTime as int, n);
  }

  /** A run that begins with START: `startTimer()`, then the rest from its state. */
  lemma RunStartThen(s: Snapshot, rest: seq<Input>)
    ensures var started := StartTimer(s, None);
      Run(s, [StartCommand] + rest).events == started.events + Run(started.after, rest).events
  {
    assert Apply(s, StartCommand) == Some(StartTimer(s, None));
    RunCons(s, StartCommand, rest);
  }

  /** `startTimer()` followed by n ticks broadcasts 0, 1, ..., n. */
  lemma StartThenTicks(s: Snapshot, n: nat)
    requires !s.jobCancelled && n <= INT_MAX
    ensures var started := StartTimer(s, None);
      Broadcasts(started.events + Ticks(started.after, n).events) == CountFrom(0, n + 1)
  {
    var started := StartTimer(s, None);
    var ticked := Ticks(started.after, n);
    TicksCountUp(started.after, n);
    BroadcastsAppend(started.events, ticked.events);
    assert CountFrom(0, n + 1) == [0] + CountFrom(1, n);
  }

  /**
   * A START command and then n tick callback runs with no other command: the activity
   * receives 0, 1, ..., n, so the last elapsed time broadcast is n. From a service with no
   * callback posted (new or paused) START posts exactly one, so these runs are n seconds.
   */
  lemma StartCommandThenTicks(s: Snapshot, n: nat)
    requires !s.jobCancelled && n <= INT_MAX
    ensures Broadcasts(Run(s, [StartCommand] + Fires(n)).events) == CountFrom(0, n + 1)
    ensures Broadcasts(Run(s, [StartCommand] + Fires(n)).events)[n] == n
  {
    var started := StartTimer(s, None);
    RunStartThen(s, Fires(n));
    RunFiresIsTicks(started.after, n);
    StartThenTicks(s, n);
    CountFromAt(0, n + 1, n);
  }

  /** The counters as the service ever sets them: a zero baseline, a non-negative count. */
  predicate CountsFromZero(s: Snapshot) {
    s.startedAtTimestamp == 0 && 0 <= s.currentTime
  }

  lemma ApplyCountsFromZero(s: Snapshot, input: Input)
    requires CountsFromZero(s) && s.currentTime as int < INT_MAX
    requires Apply(s, input).Some?
    ensures CountsFromZero(Apply(s, input).value.after)
    ensures Apply(s, input).value.after.currentTime <= s.currentTime + 1
    ensures forall v :: v in Broadcasts(Apply(s, input).value.events) ==> 0 <= v <= s.currentTime as int + 1
  {
  }

  /**
   * From counters the service set itself, a run of fewer inputs than it takes `currentTime`
   * to wrap around never broadcasts a negative elapsed time.
   */
  lemma {:induction false} ElapsedNeverNegative(s: Snapshot, inputs: seq<Input>)
    requires CountsFromZero(s) && s.currentTime as int + |inputs| <= INT_MAX
    ensures CountsFromZero(Run(s, inputs).after)
    ensures forall v :: v in Broadcasts(Run(s, inputs).events) ==> 0 <= v <= s.currentTime as int + |inputs|
    decreases |inputs|
  {
    if inputs != [] && Apply(s, inputs[0]).Some? {
      var first := Apply(s, inputs[0]).value;
      ApplyCountsFromZero(s, inputs[0]);
      ElapsedNeverNegative(first.after, inputs[1..]);
      BroadcastsAppend(first.events, Run(first.after, inputs[1..]).events);
    }
  }

  lemma FromCreationElapsedNeverNegative(inputs: seq<Input>)
    requires |inputs| <= INT_MAX
    ensures forall v :: v in Broadcasts(Run(Initial, inputs).events) ==> 0 <= v <= |inputs|
  {
    ElapsedNeverNegative(Initial, inputs);
  }

  /** At 2^31 - 1 the next tick wraps `currentTime`, and the broadcast goes negative. */
  lemma TickWrapsAtIntMax()
    ensures Broadcasts(Tick(Snapshot(Start, INT_MAX as Int32, 0, 1, false)).events) == [INT_MIN]
  {
  }

  /** After PAUSE nothing is posted, so the looper runs nothing and the elapsed time is frozen. */
  lemma {:induction false} PausedStaysFrozen(s: Snapshot, n: nat)
    ensures Run(PauseTimerService(s).after, Fires(n)) == Step(PauseTimerService(s).after, [])
    decreases n
  {
    if n > 0 {
      assert Fires(n)[1..] == Fires(n - 1);
      PausedStaysFrozen(s, n - 1);
    }
  }

  /** START after PAUSE does not resume: both counters go back to 0 and 0 is broadcast. */
  lemma PauseThenStartRestarts(s: Snapshot)
    ensures var r := Run(s, [PauseCommand, StartCommand]);
      r.after.serviceState == Start && r.after.currentTime == 0 && r.after.startedAtTimestamp == 0
      && Broadcasts(r.events) == [0]
  {
    var paused := PauseTimerService(s);
    var started := StartTimer(paused.after, None);
    assert Apply(s, PauseCommand) == Some(paused);
    assert Apply(paused.after, StartCommand) == Some(started);
    RunCons(paused.after, StartCommand, []);
    assert [StartCommand] + [] == [StartCommand];
    RunCons(s, PauseCommand, [StartCommand]);
    assert [PauseCommand] + [StartCommand] == [PauseCommand, StartCommand];
    assert Run(started.after, []) == Step(started.after, []);
    assert started.events + [] == started.events;
    assert Run(s, [PauseCommand, StartCommand]) == Step(started.after, paused.events + started.events);
    BroadcastsAppend(paused.events, started.events);
  }

  /**
   * Once the job is cancelled and nothing is posted, no tick ever runs again: only a START can
   * broadcast, and it broadcasts 0.
   */
  predicate Halted(s: Snapshot) {
    s.jobCancelled && s.pendingTicks == 0 && (s.serviceState == Start ==> Elapsed(s) == 0)
  }

  lemma ApplyKeepsHalted(s: Snapshot, input: Input)
    requires Halted(s) && Apply(s, input).Some?
    ensures Halted(Apply(s, input).value.after)
    ensures forall v :: v in Broadcasts(Apply(s, input).value.events) ==> v == 0
  {
    match input
    case Command(delivery) =>
    case Fire => assert Apply(s, input).value == Step(s, []);
    case Destroy =>
  }

  lemma {:induction false} HaltedStaysHalted(s: Snapshot, inputs: seq<Input>)
    requires Halted(s)
    ensures Halted(Run(s, inputs).after)
    ensures forall v :: v in Broadcasts(Run(s, inputs).events) ==> v == 0
    decreases |inputs|
  {
    if inputs != [] && Apply(s, inputs[0]).Some? {
      var first := Apply(s, inputs[0]).value;
      ApplyKeepsHalted(s, inputs[0]);
      HaltedStaysHalted(first.after, inputs[1..]);
      BroadcastsAppend(first.events, Run(first.after, inputs[1..]).events);
    }
  }

  /** After STOP, whatever comes: no tick is pending and no non-zero elapsed time is broadcast. */
  lemma StopEndsTicking(s: Snapshot, inputs: seq<Input>)
    ensures Run(EndTimerService(s).after, inputs).after.pendingTicks == 0
    ensures forall v :: v in Broadcasts(Run(EndTimerService(s).after, inputs).events) ==> v == 0
  {
    HaltedStaysHalted(EndTimerService(s).after, inputs);
  }

  /** After STOP the looper has nothing to run: the state and the log stay as they are. */
  lemma {:induction false} StoppedIgnoresFires(s: Snapshot, n: nat)
    ensures Run(EndTimerService(s).after, Fires(n)) == Step(EndTimerService(s).after, [])
    decreases n
  {
    if n > 0 {
      assert Fires(n)[1..] == Fires(n - 1);
      StoppedIgnoresFires(s, n - 1);
    }
  }

  /** STOP twice leaves the same state as STOP once. */
  lemma StopIsIdempotent(s: Snapshot)
    ensures EndTimerService(EndTimerService(s).after).after == EndTimerService(s).after
  {
  }

  /**
   * `onStartCommand` with no intent, no extras or INITIALIZED changes nothing; with any
   * command it returns START_NOT_STICKY unless the cast throws.
   */
  lemma {:induction false} IgnoredCommandsChangeNothing(s: Snapshot, inputs: seq<Input>)
    requires forall i :: 0 <= i < |inputs| ==> inputs[i] in {Command(NoExtras), Command(Extras(Some(Initialized)))}
    ensures Run(s, inputs) == Step(s, [])
    decreases |inputs|
  {
    if inputs != [] {
      IgnoredCommandsChangeNothing(s, inputs[1..]);
    }
  }

  /** START while running posts a second tick callback: two callbacks then count in parallel. */
  lemma RepeatedStartPostsTwoTicks()
    ensures Run(Initial, [StartCommand, StartCommand]).after.pendingTicks == 2
  {
    var once := StartTimer(Initial, None);
    var twice := StartTimer(once.after, None);
    assert Apply(Initial, StartCommand) == Some(once);
    assert Apply(once.after, StartCommand) == Some(twice);
    RunCons(once.after, StartCommand, []);
    assert [StartCommand] + [] == [StartCommand];
    RunCons(Initial, StartCommand, [StartCommand]);
    assert [StartCommand] + [StartCommand] == [StartCommand, StartCommand];
  }
}
