/** Automatic restarts over whole histories of the daemon: they wait for their deadlines. */
module DaemonTiming {
  import opened Basics
  import opened Restart
  import opened Lifecycle
  import opened LifecycleRuns
  import opened TokenSlab
  import opened Apps
  import opened Fleet
  import opened LogIpc
  import opened ControlIpc
  import opened ControlServer
  import opened DaemonSteps
  import opened DaemonRuns

  /** Whatever restart is pending for an app was pending all the while. */
  ghost predicate NothingScheduled(before: AppView, after: AppView) {
    && after.params == before.params
    && (PendingDeadline(after.state).Some? ==>
          after.state == before.state && after.consecutiveFailures == before.consecutiveFailures)
  }

  lemma NothingScheduledSelf(a: AppView)
    ensures NothingScheduled(a, a)
  {
  }

  lemma NothingScheduledTransitive(a: AppView, b: AppView, c: AppView)
    requires NothingScheduled(a, b) && NothingScheduled(b, c)
    ensures NothingScheduled(a, c)
  {
  }

  /** An event reports the exit of an app, whose restart is scheduled for the moment the exit was
      decided on plus the delay its strategy has for the failures in a row. */
  ghost predicate Schedules(ev: IoEvent, before: AppSnapshot, after: AppView) {
    && ReportsExit(ev, before) && after.params == before.view.params
    && !before.view.stopRequested && !before.view.params.oneshot
    && var exit := ev.waited.value;
       var uptime := Elapsed(before.view.state.rt.startedAt, exit.at);
       var delay := StrategyFor(after.params.restart, exit.cause).DelayFor(Max(after.consecutiveFailures, 1));
       && after.consecutiveFailures == FailuresAfter(before.view, exit.cause, uptime)
       && after.state == State.Stopped(Some(LastExecutionInfo(exit.cause, Some(exit.decidedAt + delay as real))))
  }

  lemma AppEffectSchedulesNothing(before: AppSnapshot, after: AppSnapshot, starts: bool)
    requires AppEffect(before, after, starts)
    ensures NothingScheduled(before.view, after.view)
  {
  }

  lemma EffectSchedulesNothing(names: seq<Name>, request: Option<Request>, before: Estate, after: Estate,
      response: Response, i: nat)
    requires |before.apps| == |after.apps| == |names| && Effect(names, request, before, after, response) && i < |names|
    ensures NothingScheduled(before.apps[i].view, after.apps[i].view)
  {
    hide Effect, AppEffect, NothingScheduled;
    EffectOnApp(names, request, before, after, response, i);
    AppEffectSchedulesNothing(before.apps[i], after.apps[i], AsksToStart(names, request, i));
  }

  lemma {:induction false} RequestsScheduleNothing(codec: Codec, names: seq<Name>, lines: seq<seq<byte>>,
      responses: seq<Response>, before: Estate, after: Estate, i: nat)
    requires |lines| == |responses| && CarriedOut(codec, names, lines, responses, before, after) && i < |names|
    ensures |before.apps| == |after.apps| == |names|
    ensures NothingScheduled(before.apps[i].view, after.apps[i].view)
    decreases |lines|
  {
    hide Effect, NothingScheduled;
    if lines == [] {
      NothingScheduledSelf(before.apps[i].view);
    } else {
      var n := |lines| - 1;
      var mid := LastCarriedOut(codec, names, lines, responses, before, after);
      RequestsScheduleNothing(codec, names, lines[..n], responses[..n], before, mid, i);
      EffectSchedulesNothing(names, codec.decode(lines[n]), mid, after, responses[n], i);
      NothingScheduledTransitive(before.apps[i].view, mid.apps[i].view, after.apps[i].view);
    }
  }

  lemma ControlSchedulesNothing(setup: Setup, w: World, ev: IoEvent, after: World, i: nat)
    requires ev.token in w.control && ControlStep(setup, w, ev, after) && i < |setup.names|
    ensures |after.apps| == |w.apps| == |setup.names| && NothingScheduled(w.apps[i].view, after.apps[i].view)
  {
    hide CarriedOut, SessionStep, NothingScheduled, ControlStep;
    var done, answers, pool := ControlCarriesOut(setup, w, ev, after);
    RequestsScheduleNothing(setup.codec, setup.names, done, answers, EstateIn(w),
      Estate(after.apps, pool), i);
  }

  lemma ReactionSchedules(before: AppSnapshot, after: AppSnapshot, ev: IoEvent, tryRestart: bool)
    requires PollOutcome(before, after, ev.token, ForApp(ev), tryRestart)
    ensures NothingScheduled(before.view, after.view) || Schedules(ev, before, after.view)
  {
    hide RestartDelay.DelayFor, RestartDelay.IsNever;
  }

  /** The only event that can make a restart pending is the exit of the app. */
  lemma EventSchedules(setup: Setup, w: World, ev: IoEvent, after: World, i: nat)
    requires |w.apps| == |setup.names| == |setup.rings| && EventStep(setup, w, ev, after) && i < |w.apps|
    ensures |after.apps| == |w.apps|
    ensures NothingScheduled(w.apps[i].view, after.apps[i].view) || Schedules(ev, w.apps[i], after.apps[i].view)
  {
    hide ControlStep, LogStep, ControlAccepted, LogsAccepted, PollOutcome, NothingScheduled, Schedules;
    NothingScheduledSelf(w.apps[i].view);
    if ev.token == SIGNALFD_TOKEN {
    } else if ev.token == UNIX_LISTENER_TOKEN {
      ControlAcceptedKeeps(setup, w, ev.pending, after);
    } else if ev.token == LOG_LISTENER_TOKEN {
      LogsAcceptedKeeps(setup, w, ev.pending, after);
    } else if ev.token in w.control {
      ControlSchedulesNothing(setup, w, ev, after, i);
    } else if ev.token in w.logs {
      LogStepKeeps(setup, w, ev, after);
    } else {
      ReactionSchedules(w.apps[i], after.apps[i], ev, w.sigints == 0);
    }
  }

  /** Event `e` of a batch scheduled what is pending for an app in `later`. */
  ghost predicate ScheduledAt(worlds: seq<World>, events: seq<IoEvent>, e: nat, i: nat, later: AppView) {
    && e < |events| && |worlds| == |events| + 1 && i < |worlds[e].apps| && i < |worlds[e + 1].apps|
    && Schedules(events[e], worlds[e].apps[i], worlds[e + 1].apps[i].view)
    && NothingScheduled(worlds[e + 1].apps[i].view, later)
  }

  /** During a batch, a restart is pending since before it or since one of its events. */
  lemma {:induction false} EventsSchedule(setup: Setup, worlds: seq<World>, events: seq<IoEvent>, k: nat, i: nat)
    requires Handled(setup, worlds, events) && k < |worlds| && i < |setup.names|
    ensures |worlds[0].apps| == |worlds[k].apps| == |setup.names|
    ensures NothingScheduled(worlds[0].apps[i].view, worlds[k].apps[i].view)
            || exists e :: 0 <= e < k && ScheduledAt(worlds, events, e, i, worlds[k].apps[i].view)
  {
    hide EventStep, SoundWorld, NothingScheduled, Schedules;
    SameApps(setup, worlds, events, k);
    if k == 0 {
      NothingScheduledSelf(worlds[0].apps[i].view);
    } else {
      SameApps(setup, worlds, events, k - 1);
      var last, now := worlds[k - 1].apps[i].view, worlds[k].apps[i].view;
      EventsSchedule(setup, worlds, events, k - 1, i);
      EventSchedules(setup, worlds[k - 1], events[k - 1], worlds[k], i);
      if Schedules(events[k - 1], worlds[k - 1].apps[i], now) {
        NothingScheduledSelf(now);
        assert ScheduledAt(worlds, events, k - 1, i, now);
      } else if NothingScheduled(worlds[0].apps[i].view, last) {
        NothingScheduledTransitive(worlds[0].apps[i].view, last, now);
      } else {
        var e :| 0 <= e < k - 1 && ScheduledAt(worlds, events, e, i, last);
        NothingScheduledTransitive(worlds[e + 1].apps[i].view, last, now);
        assert ScheduledAt(worlds, events, e, i, now);
      }
    }
  }

  lemma PhaseSchedulesNothing(before: AppSnapshot, after: AppSnapshot, now: Instant, allowed: bool, pool: Pool)
    requires PhaseOutcome(before, after, now, allowed, pool)
    ensures NothingScheduled(before.view, after.view)
  {
  }

  lemma StopSchedulesNothing(before: AppSnapshot, after: AppSnapshot, force: bool, r: Apps.Result<bool>)
    requires StopOutcome(before, after, force, r)
    ensures NothingScheduled(before.view, after.view)
  {
  }

  /** After the events of an iteration no more restarts are scheduled in it. */
  lemma TurnEndSchedulesNothing(setup: Setup, before: World, wake: Wake, course: Course, after: World, i: nat)
    requires Turn(setup, before, wake, course, after) && i < |before.apps|
    ensures |course.worlds[|wake.events|].apps| == |after.apps| == |before.apps|
    ensures NothingScheduled(course.worlds[|wake.events|].apps[i].view, after.apps[i].view)
  {
    hide SoundWorld, Pushed, EventStep, NothingScheduled, PhaseOutcome, StopOutcome;
    TurnSigints(setup, before, wake, course, after);
    SameApps(setup, course.worlds, wake.events, |wake.events|);
    var pool := PhaseAt(course.pushed, course.phased, wake.now, i);
    var polled, phased := course.pushed.apps[i], course.phased.apps[i];
    PhaseSchedulesNothing(polled, phased, wake.now, course.pushed.sigints == 0, pool);
    if course.phased.sigints > 0 {
      var results :| AllStopped(course.phased.apps, after.apps, course.phased.sigints >= SIGINT_THRESHOLD, results);
      StopSchedulesNothing(phased, after.apps[i], course.phased.sigints >= SIGINT_THRESHOLD, results[i]);
      NothingScheduledTransitive(polled.view, phased.view, after.apps[i].view);
    }
  }

  /** Event `e` of iteration `j` scheduled what is pending for an app in `later`. */
  ghost predicate ScheduledIn(wakes: seq<Wake>, laps: seq<Lap>, j: nat, e: nat, i: nat, later: AppView) {
    j < |laps| <= |wakes| && ScheduledAt(laps[j].course.worlds, wakes[j].events, e, i, later)
  }

  /** What is pending in `later` was scheduled by an event of the first `k` iterations. */
  ghost predicate PendingSince(wakes: seq<Wake>, laps: seq<Lap>, k: nat, i: nat, later: AppView) {
    PendingDeadline(later.state).None? || exists j, e :: 0 <= j < k && ScheduledIn(wakes, laps, j, e, i, later)
  }

  lemma StillPending(wakes: seq<Wake>, laps: seq<Lap>, k: nat, i: nat, before: AppView, later: AppView)
    requires PendingSince(wakes, laps, k, i, before) && NothingScheduled(before, later)
    ensures PendingSince(wakes, laps, k, i, later)
  {
    hide Schedules;
    if PendingDeadline(later.state).Some? {
      var j, e :| 0 <= j < k && ScheduledIn(wakes, laps, j, e, i, before);
      NothingScheduledTransitive(laps[j].course.worlds[e + 1].apps[i].view, before, later);
      assert ScheduledIn(wakes, laps, j, e, i, later);
    }
  }

  /** In a history that begins without pending restarts, all that is pending after the events of an
      iteration was scheduled by them or by events before. */
  lemma {:induction false} PendingWasScheduled(setup: Setup, history: seq<World>, wakes: seq<Wake>, laps: seq<Lap>,
      k: nat, i: nat)
    requires IsHistory(setup, history, wakes, laps) && k < |laps| && i < |setup.names|
    requires |history[0].apps| == |setup.names| && PendingDeadline(history[0].apps[i].view.state).None?
    ensures |laps[k].course.worlds| == |wakes[k].events| + 1
    ensures |history[k].apps| == |laps[k].course.worlds[|wakes[k].events|].apps| == |setup.names|
    ensures PendingSince(wakes, laps, k + 1, i, laps[k].course.worlds[|wakes[k].events|].apps[i].view)
  {
    hide EventStep, PushStep, PhaseStep, StopStep, WakesInTime, SoundWorld, NothingScheduled, Schedules;
    var worlds, n := laps[k].course.worlds, |wakes[k].events|;
    assert Turn(setup, history[k], wakes[k], laps[k].course, history[k + 1]);
    EventsSchedule(setup, worlds, wakes[k].events, n, i);
    if k > 0 {
      PendingWasScheduled(setup, history, wakes, laps, k - 1, i);
      TurnEndSchedulesNothing(setup, history[k - 1], wakes[k - 1], laps[k - 1].course, history[k], i);
      var polled := laps[k - 1].course.worlds[|wakes[k - 1].events|].apps[i].view;
      StillPending(wakes, laps, k, i, polled, history[k].apps[i].view);
    }
    if NothingScheduled(history[k].apps[i].view, worlds[n].apps[i].view) {
      StillPending(wakes, laps, k, i, history[k].apps[i].view, worlds[n].apps[i].view);
    } else {
      var e :| 0 <= e < n && ScheduledAt(worlds, wakes[k].events, e, i, worlds[n].apps[i].view);
      assert ScheduledIn(wakes, laps, k, e, i, worlds[n].apps[i].view);
    }
  }

  /** Event `e` of a batch scheduled a restart of an app, which is due at `now`: nobody had asked the
      app to stop, and the delay for its failures in a row has gone by since its exit. */
  ghost predicate DueAt(worlds: seq<World>, events: seq<IoEvent>, e: nat, i: nat, now: Instant) {
    && e < |events| && |worlds| == |events| + 1 && i < |worlds[e].apps| && i < |worlds[e + 1].apps|
    && var exited := worlds[e + 1].apps[i].view;
       && Schedules(events[e], worlds[e].apps[i], exited)
       && var exit := events[e].waited.value;
          var delay := StrategyFor(exited.params.restart, exit.cause).DelayFor(Max(exited.consecutiveFailures, 1));
          now >= exit.decidedAt + delay as real
  }

  lemma StillDue(worlds: seq<World>, events: seq<IoEvent>, e: nat, i: nat, later: AppView, now: Instant)
    requires ScheduledAt(worlds, events, e, i, later)
    requires PendingDeadline(later.state).Some? && PendingDeadline(later.state).value <= now
    ensures DueAt(worlds, events, e, i, now)
  {
    hide RestartDelay.DelayFor, RestartDelay.IsNever;
  }

  /** In a history that begins without pending restarts, an automatic restart is counted only while no
      interrupt has come, once in an iteration, and only if the exit that scheduled it is on record and its
      delay has gone by at the clock of the iteration. */
  lemma RestartsAreDue(setup: Setup, history: seq<World>, wakes: seq<Wake>, laps: seq<Lap>, k: nat, i: nat)
    returns (j: nat, e: nat)
    requires IsHistory(setup, history, wakes, laps) && k < |laps| && i < |setup.names|
    requires |history[0].apps| == |setup.names| && PendingDeadline(history[0].apps[i].view.state).None?
    requires |history[k].apps| == |history[k + 1].apps| == |setup.names|
    requires history[k + 1].apps[i].view.restartCount != history[k].apps[i].view.restartCount
    ensures history[k + 1].sigints == 0
    ensures history[k + 1].apps[i].view.restartCount == history[k].apps[i].view.restartCount + 1
    ensures j <= k && DueAt(laps[j].course.worlds, wakes[j].events, e, i, wakes[k].now)
  {
    hide Turn, WakesInTime, DeadlinesAfter, NoRestart, Schedules, NothingScheduled;
    var turn := laps[k].course;
    assert Turn(setup, history[k], wakes[k], turn, history[k + 1]);
    if history[k + 1].sigints > 0 {
      InterruptedTurn(setup, history[k], wakes[k], turn, history[k + 1]);
      SameRestarts(history[k].apps[i].view, history[k + 1].apps[i].view);
      assert false;
    }
    UninterruptedTurn(setup, history[k], wakes[k], turn, history[k + 1], i);
    PendingWasScheduled(setup, history, wakes, laps, k, i);
    var polled := turn.worlds[|wakes[k].events|].apps[i].view;
    j, e :| 0 <= j <= k && ScheduledIn(wakes, laps, j, e, i, polled);
    StillDue(laps[j].course.worlds, wakes[j].events, e, i, polled, wakes[k].now);
  }
}
