/** What an iteration comes to after its events, written out in states and numbers: restarts that are due,
    the end of the daemon, how long it may sleep, and what followers are sent. */
module DaemonTurns {
  import opened Basics
  import opened Lifecycle
  import opened TokenSlab
  import opened Apps
  import opened Fleet
  import opened LogIpc
  import opened DaemonSteps
  import opened DaemonRuns
  import opened DaemonService
  import opened DaemonEvents
  import opened DaemonRequests
  import opened DaemonStreams
  import Kernel

  // Restarts that are due

  /** The tokens out once the restarts due at `now` have been tried for all of some apps, in order. */
  function OutWhenDue(apps: seq<AppSnapshot>, now: Instant, capacity: nat, out: nat): nat {
    if apps == [] then out
    else
      var last, others := apps[|apps| - 1], OutWhenDue(apps[..|apps| - 1], now, capacity, out);
      match last.view.state
      case Stopped(Some(LastExecutionInfo(_, Some(deadline)))) =>
        if deadline <= now then others + TokensTaken(last.host.launches(last.launches), capacity, others) else others
      case _ => others
  }

  lemma {:induction false} RestartsTake(apps: seq<AppSnapshot>, now: Instant, pool: Pool)
    ensures AfterPhases(apps, now, true, pool).out == OutWhenDue(apps, now, pool.capacity, pool.out)
    ensures AfterPhases(apps, now, true, pool).capacity == pool.capacity
  {
    hide AfterLaunch, TokensTaken;
    if apps != [] {
      var init, last := apps[..|apps| - 1], apps[|apps| - 1];
      RestartsTake(init, now, pool);
      LaunchTakes(last.host.launches(last.launches), AfterPhases(init, now, true, pool));
    }
  }

  /** What a restart that is due leaves of an app while `out` of the tokens are out. It goes through exactly
      if the process is forked, its pidfd can be opened, all three descriptors can be registered, and three
      tokens are left; then the app runs since the launch began, and the restart is counted. If not, the app
      is down for good with the cause of its last exit, and a process that was forked is an orphan. */
  ghost predicate RestartLeaves(a: AppSnapshot, cause: ReturnState, capacity: nat, out: nat, b: AppSnapshot) {
    var launch := a.host.launches(a.launches);
    var forked := if launch.forks then 1 else 0;
    if launch.forks && launch.opens && launch.registered >= 3 && out + 3 <= capacity then
      && b.view.state.Running? && b.view.state.rt.startedAt == launch.startedAt
      && b == a.(launches := a.launches + 1, spawned := a.spawned + 1,
           view := a.view.(state := b.view.state, restartCount := a.view.restartCount + 1,
             created := a.view.created + 1))
    else
      b == a.(launches := a.launches + 1, spawned := a.spawned + forked, orphaned := a.orphaned + forked,
        view := a.view.(state := State.Stopped(Some(LastExecutionInfo(cause, None)))))
  }

  lemma RestartInStates(before: AppSnapshot, after: AppSnapshot, now: Instant, pool: Pool)
    requires PhaseOutcome(before, after, now, true, pool)
    ensures match before.view.state
            case Stopped(Some(LastExecutionInfo(cause, Some(deadline)))) =>
              if deadline <= now then RestartLeaves(before, cause, pool.capacity, pool.out, after) else after == before
            case _ => after == before
  {
  }

  /** What an uninterrupted iteration makes of an app after its events. A pending restart whose deadline is
      not after the clock of the restart phase is tried, with the tokens that the restarts due before it in
      the list have left. Any other app is left alone. */
  lemma DueRestartsCome(setup: Setup, before: World, wake: Wake, course: Course, after: World, i: nat)
    requires Turn(setup, before, wake, course, after) && after.sigints == 0 && i < |before.apps|
    ensures |course.worlds| == |wake.events| + 1
    ensures var polled, pool := course.worlds[|wake.events|].apps, course.pushed.pool;
            && |polled| == |after.apps| == |before.apps|
            && after.pool.out == OutWhenDue(polled, wake.now, pool.capacity, pool.out)
            && match polled[i].view.state
               case Stopped(Some(LastExecutionInfo(cause, Some(deadline)))) =>
                 if deadline <= wake.now then
                   var out := OutWhenDue(polled[..i], wake.now, pool.capacity, pool.out);
                   RestartLeaves(polled[i], cause, pool.capacity, out, after.apps[i])
                 else after.apps[i] == polled[i]
               case _ => after.apps[i] == polled[i]
  {
    hide SoundWorld, Pushed, EventStep, PhaseOutcome, AfterPhases, OutWhenDue, RestartLeaves, StopAsked;
    TurnSigints(setup, before, wake, course, after);
    SameApps(setup, course.worlds, wake.events, |wake.events|);
    var polled, pool := course.worlds[|wake.events|].apps, course.pushed.pool;
    assert polled[..|polled|] == polled;
    RestartsTake(polled, wake.now, pool);
    RestartsTake(polled[..i], wake.now, pool);
    assert PhaseOutcome(polled[i], course.phased.apps[i], wake.now, true,
        AfterPhases(polled[..i], wake.now, true, pool));
    RestartInStates(polled[i], after.apps[i], wake.now, AfterPhases(polled[..i], wake.now, true, pool));
  }

  // Shutting down

  lemma CancelInStates(before: AppSnapshot, after: AppSnapshot, now: Instant, pool: Pool)
    requires PhaseOutcome(before, after, now, false, pool)
    ensures match before.view.state
            case Stopped(Some(LastExecutionInfo(cause, Some(_)))) =>
              after == before.(view := before.view.(state := State.Stopped(Some(LastExecutionInfo(cause, None)))))
            case _ => after == before
  {
  }

  lemma {:induction false} NothingDue(apps: seq<AppSnapshot>, now: Instant, pool: Pool)
    ensures AfterPhases(apps, now, false, pool) == pool
  {
    if apps != [] {
      NothingDue(apps[..|apps| - 1], now, pool);
    }
  }

  /** What an interrupted iteration makes of an app after its events. Everything that runs is sent exactly
      one signal, SIGTERM after one interrupt and SIGKILL after two or more, and will not be restarted; a
      pending restart is given up; an app that is down is sent nothing. No tokens change hands. */
  lemma InterruptStopsAll(setup: Setup, before: World, wake: Wake, course: Course, after: World, i: nat)
    requires Turn(setup, before, wake, course, after) && after.sigints > 0 && i < |before.apps|
    ensures |course.worlds| == |wake.events| + 1
    ensures var polled := course.worlds[|wake.events|].apps;
            && |polled| == |after.apps| == |before.apps| && after.pool == course.pushed.pool
            && var a, b := polled[i], after.apps[i];
               match a.view.state
               case Running(_) =>
                 b == a.(view := a.view.(stopRequested := true),
                         signals := a.signals + [if after.sigints >= 2 then SigKill else SigTerm])
               case Stopped(Some(LastExecutionInfo(cause, Some(_)))) =>
                 b == a.(view := a.view.(state := State.Stopped(Some(LastExecutionInfo(cause, None)))))
               case Stopped(_) => b == a
  {
    hide SoundWorld, Pushed, EventStep, PhaseOutcome, AfterPhases, StopOutcome;
    TurnSigints(setup, before, wake, course, after);
    SameApps(setup, course.worlds, wake.events, |wake.events|);
    var polled, force := course.worlds[|wake.events|].apps, after.sigints >= 2;
    var pool := PhaseAt(course.pushed, course.phased, wake.now, i);
    CancelInStates(polled[i], course.phased.apps[i], wake.now, pool);
    var results :| AllStopped(course.phased.apps, after.apps, force, results);
    StopInStates(course.phased.apps[i], after.apps[i], force, results[i]);
    NothingDue(polled, wake.now, course.pushed.pool);
    assert polled[..|polled|] == polled;
  }

  // Leaving and sleeping

  /** Some app runs, or a restart of it is pending. */
  predicate IsBusy(w: World) {
    exists i :: 0 <= i < |w.apps|
                && match w.apps[i].view.state
                   case Running(_) => true
                   case Stopped(None) => false
                   case Stopped(Some(LastExecutionInfo(_, deadline))) => deadline.Some?
  }

  /** The loop is left exactly if the daemon is not busy, and was interrupted or is not to keep running. */
  lemma LeavesUnlessBusy(keepRunning: bool, w: World)
    ensures MayLeave(keepRunning, w) <==> (w.sigints > 0 || !keepRunning) && !IsBusy(w)
  {
  }

  /** How long it is from `at` to the deadline an app waits for, if it waits for one. */
  function WaitFrom(at: Instant, s: State): Option<real> {
    match s
    case Stopped(Some(LastExecutionInfo(_, Some(deadline)))) => Some(if deadline <= at then 0.0 else deadline - at)
    case _ => None
  }

  lemma WaitIsWait(apps: seq<AppSnapshot>, at: Instant, timeout: Option<real>)
    requires WakesInTime(apps, at, timeout)
    ensures timeout.None? <==> forall i :: 0 <= i < |apps| ==> WaitFrom(at, apps[i].view.state).None?
    ensures forall i :: 0 <= i < |apps| && timeout.Some? ==>
              var wait := WaitFrom(at, apps[i].view.state);
              wait.Some? ==> timeout.value <= wait.value
    ensures timeout.Some? ==> exists i :: 0 <= i < |apps| && WaitFrom(at, apps[i].view.state) == timeout
  {
    forall i | 0 <= i < |apps|
      ensures match PendingDeadline(apps[i].view.state)
              case None => WaitFrom(at, apps[i].view.state).None?
              case Some(deadline) => WaitFrom(at, apps[i].view.state) == Some(MaxReal(0.0, deadline - at))
    {
    }
  }

  /** Before each wait for events: if no restart is pending, the daemon sleeps until something happens;
      otherwise exactly as long as the shortest wait for one. */
  lemma SleepsUntilDue(setup: Setup, history: seq<World>, wakes: seq<Wake>, laps: seq<Lap>, k: nat)
    requires IsHistory(setup, history, wakes, laps) && k < |laps|
    ensures laps[k].timeout.None? <==>
              forall i :: 0 <= i < |history[k].apps| ==> WaitFrom(wakes[k].started, history[k].apps[i].view.state).None?
    ensures forall i :: 0 <= i < |history[k].apps| && laps[k].timeout.Some? ==>
              var wait := WaitFrom(wakes[k].started, history[k].apps[i].view.state);
              wait.Some? ==> laps[k].timeout.value <= wait.value
    ensures laps[k].timeout.Some? ==>
              exists i :: 0 <= i < |history[k].apps|
                          && WaitFrom(wakes[k].started, history[k].apps[i].view.state) == laps[k].timeout
  {
    hide Turn;
    assert WakesInTime(history[k].apps, wakes[k].started, laps[k].timeout);
    WaitIsWait(history[k].apps, wakes[k].started, laps[k].timeout);
  }

  // Followers

  /** What a push makes of a follower's connection. */
  lemma FollowerIsSentOn(f: Feed, logs: seq<LogView>, link: Kernel.Link, i: nat)
    requires f.Orderly(logs) && f.state.Streaming? && f.state.sub.follow
    requires i < |logs| && logs[i].name == f.state.sub.name && forall j :: 0 <= j < i ==> logs[j].name != logs[i].name
    ensures f.reader.cursor <= |logs[i].history|
    ensures var g, from, log := f.Finish(true, logs, link), f.reader.cursor, logs[i].history;
            var start := if |log| - from <= logs[i].capacity then from else |log| - logs[i].capacity;
            var n := Takable(|log| - start, link.outlet);
            && g.reader.delivered == f.reader.delivered + log[start..start + n] && g.reader.cursor == start + n
            && (g.Dropped() <==> if start + n < |log| then link.outlet.breaks else f.closing)
  {
    hide Feed.Orderly, Feed.Finish, Feed.Send, Takable;
    StreamIsSound(f, logs, i);
    FinishSendsOn(f, logs, link);
    StreamGoesOn(f, logs, link.outlet, i);
  }

  /** At the end of an iteration every follower has been sent, from where it was or from the oldest byte
      retained, as much of its app's log as its own socket takes. It is dropped exactly if that was not all
      and the socket breaks, or that was all and its peer had finished. */
  lemma FollowersAreSentOn(setup: Setup, before: World, wake: Wake, course: Course, after: World, t: Token, f: Feed,
      i: nat)
    returns (g: Feed)
    requires Turn(setup, before, wake, course, after) && i < |setup.names|
    requires t in course.worlds[|wake.events|].logs
    requires course.worlds[|wake.events|].logs[t] in course.worlds[|wake.events|].feeds
    requires f == course.worlds[|wake.events|].feeds[course.worlds[|wake.events|].logs[t]]
    requires f.state.Streaming? && f.state.sub.follow && f.state.sub.name == setup.names[i]
    requires setup.names[i] !in setup.names[..i]
    ensures |after.apps| == |setup.rings| == |setup.names| && |course.worlds| == |wake.events| + 1
    ensures course.worlds[|wake.events|].logs[t] in after.feeds
    ensures g == after.feeds[course.worlds[|wake.events|].logs[t]] && f.reader.cursor <= |after.apps[i].log|
    ensures var from, log := f.reader.cursor, after.apps[i].log;
            var start := if |log| - from <= setup.rings[i] then from else |log| - setup.rings[i];
            var n := Takable(|log| - start, wake.links(t).outlet);
            && g.reader.delivered == f.reader.delivered + log[start..start + n] && g.reader.cursor == start + n
            && (t !in after.logs <==> if start + n < |log| then wake.links(t).outlet.breaks else f.closing)
  {
    hide Turn, LogsIn, Feed.Orderly, Feed.Finish, Takable, Feed.Dropped;
    PushedLast(setup, before, wake, course, after);
    var w := course.worlds[|wake.events|];
    assert forall j :: 0 <= j < i ==> setup.names[j] == setup.names[..i][j];
    assert LogsIn(setup, w)[i].history == LogsIn(setup, after)[i].history == after.apps[i].log;
    FollowerIsSentOn(f, LogsIn(setup, w), wake.links(t), i);
    g := after.feeds[w.logs[t]];
  }
}
