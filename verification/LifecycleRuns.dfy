/** Properties of whole runs of the app state machine. */
module LifecycleRuns {
  import opened Basics
  import opened Restart
  import opened Lifecycle

  // What every step keeps

  /** A restart is pending only for an app that may be restarted: nobody asked it to stop, it is
      not oneshot, its policy restarts after the recorded outcome, and the streak is in bounds.
      Every runtime object but the live one has been cleaned up. */
  ghost predicate Sound(a: AppView) {
    && a.created == a.cleaned + (if a.state.Running? then 1 else 0)
    && (PendingDeadline(a.state).Some? ==>
          var cause := a.state.last.value.cause;
          && !a.stopRequested
          && !a.params.oneshot
          && !StrategyFor(a.params.restart, cause).IsNever()
          && (a.params.restart.maxRestartAttempts.Some? ==>
              a.consecutiveFailures <= a.params.restart.maxRestartAttempts.value)
          && (!Succeeded(cause) ==> a.consecutiveFailures >= 1))
  }

  lemma {:induction false} RunsAreSound(a: AppView, evs: seq<Event>)
    requires Sound(a)
    ensures Sound(Run(a, evs))
  {
    if evs != [] {
      RunsAreSound(a, evs[..|evs| - 1]);
    }
  }

  /** From its creation on an app is always sound: runtimes created equal runtimes cleaned up,
      plus the live one. */
  lemma AppsAreSound(params: AppParams, launched: Option<AppRuntime>, evs: seq<Event>)
    ensures Sound(Run(Initial(params, launched), evs))
  {
    RunsAreSound(Initial(params, launched), evs);
  }

  // An explicit stop is respected

  /** Nothing but an explicit start can bring up a new runtime. */
  ghost predicate Quiet(a: AppView) {
    if a.state.Running? then a.stopRequested else PendingDeadline(a.state).None?
  }

  ghost predicate NoStarts(evs: seq<Event>) {
    forall i :: 0 <= i < |evs| ==> !evs[i].StartEvent?
  }

  /** After a stop, no sequence of exits, deadlines and restart phases creates a runtime; once
      the process that was running exits, the app stays stopped. */
  lemma {:induction false} StopIsRespected(a: AppView, evs: seq<Event>)
    requires Quiet(a) || exists b :: a == Stop(b)
    requires NoStarts(evs)
    ensures Quiet(Run(a, evs)) && Run(a, evs).created == a.created
    ensures Run(a, evs).state.Running? ==> Run(a, evs).state == a.state
  {
    if evs != [] {
      StopIsRespected(a, evs[..|evs| - 1]);
    }
  }

  /** Nobody started the app: it got no runtime but by automatic restarts, and if nothing but a start
      could bring it up, nothing did, and it is still so. */
  ghost predicate NotStarted(before: AppView, after: AppView) {
    && after.created - after.restartCount == before.created - before.restartCount
    && (Quiet(before) ==>
          && Quiet(after) && after.created == before.created
          && (after.state.Running? ==> after.state == before.state))
  }

  lemma NotStartedSelf(a: AppView)
    ensures NotStarted(a, a)
  {
  }

  lemma NotStartedTransitive(a: AppView, b: AppView, c: AppView)
    requires NotStarted(a, b) && NotStarted(b, c)
    ensures NotStarted(a, c)
  {
  }

  lemma StepStartsNothing(a: AppView, ev: Event)
    requires !ev.StartEvent?
    ensures NotStarted(a, Step(a, ev))
  {
  }

  /** The same in the life of any app: however it got there, after a stop nothing but an explicit
      start ever gives it a new runtime or a pending restart. */
  lemma StoppedForGood(params: AppParams, launched: Option<AppRuntime>, evs: seq<Event>, more: seq<Event>)
    requires NoStarts(more)
    ensures var stopped, later := Run(Initial(params, launched), evs + [StopEvent]),
        Run(Initial(params, launched), evs + [StopEvent] + more);
            && later.created == stopped.created
            && PendingDeadline(later.state).None?
            && (later.state.Running? ==> later.state == stopped.state && later.stopRequested)
  {
    var a := Initial(params, launched);
    RunSnoc(a, evs, StopEvent);
    RunSplit(a, evs + [StopEvent], more);
    assert Run(a, evs + [StopEvent]) == Stop(Run(a, evs));
    StopIsRespected(Run(a, evs + [StopEvent]), more);
  }

  /** An app that gave up on restarts stays down until an explicit start. */
  lemma GivingUpIsFinal(a: AppView, cause: ReturnState, uptime: real, now: Instant, evs: seq<Event>)
    requires Evaluated(a, true) && NoStarts(evs)
    requires a.params.restart.maxRestartAttempts.Some?
    requires FailuresAfter(a, cause, uptime) > a.params.restart.maxRestartAttempts.value
    ensures !Run(Exit(a, cause, uptime, now, true), evs).state.Running?
  {
    StopIsRespected(Exit(a, cause, uptime, now, true), evs);
  }

  // Failure streaks

  datatype Mark = Reset | Failure | FailureAfterLongRun | Neutral

  /** How an event bears on the failure streak of an app: policy-evaluated exits count, and
      explicit starts, successes and long runs begin a new streak. */
  function MarkOf(a: AppView, ev: Event): Mark {
    match ev
    case StartEvent(launched) =>
      if !a.state.Running? && launched.Some? then Reset else Neutral
    case ExitEvent(cause, uptime, _, tryRestart) =>
      if !Evaluated(a, tryRestart) then Neutral
      else if Succeeded(cause) then Reset
      else if uptime >= a.params.restart.resetAfterMs as real then FailureAfterLongRun
      else Failure
    case _ => Neutral
  }

  function Marks(a: AppView, evs: seq<Event>): (marks: seq<Mark>)
    ensures |marks| == |evs|
  {
    if evs == [] then []
    else
      var init := evs[..|evs| - 1];
      Marks(a, init) + [MarkOf(Run(a, init), evs[|evs| - 1])]
  }

  /** Where the current streak begins: after the last reset, or at the failure of a long run. */
  function StreakStart(marks: seq<Mark>): (i: nat)
    ensures i <= |marks|
  {
    if marks == [] || marks[|marks| - 1].Reset? then |marks|
    else if marks[|marks| - 1].FailureAfterLongRun? then |marks| - 1
    else StreakStart(marks[..|marks| - 1])
  }

  function CountFailures(marks: seq<Mark>): nat {
    if marks == [] then 0
    else CountFailures(marks[..|marks| - 1])
         + (if marks[|marks| - 1] in {Failure, FailureAfterLongRun} then 1 else 0)
  }

  function Streak(marks: seq<Mark>): nat {
    CountFailures(marks[StreakStart(marks)..])
  }

  lemma {:induction false} StreakGrows(marks: seq<Mark>, mark: Mark)
    ensures Streak(marks + [mark]) ==
            match mark
            case Reset => 0
            case FailureAfterLongRun => 1
            case Failure => Streak(marks) + 1
            case Neutral => Streak(marks)
  {
    var all := marks + [mark];
    assert all[..|marks|] == marks;
    match mark
    case Reset => assert all[|all|..] == [];
    case FailureAfterLongRun =>
      assert all[|marks|..] == [mark];
      assert CountFailures([mark][..0]) == 0;
    case _ =>
      var i := StreakStart(marks);
      assert StreakStart(all) == i by {
        if marks == [] {
          assert StreakStart(all) == StreakStart(marks);
        }
      }
      assert all[i..] == marks[i..] + [mark];
      assert (marks[i..] + [mark])[..|marks| - i] == marks[i..];
  }

  /** The failure counter is the number of policy-evaluated failed exits since the last reset. */
  lemma {:induction false} FailuresAreTheStreak(params: AppParams, launched: Option<AppRuntime>, evs: seq<Event>)
    ensures var a := Initial(params, launched);
            Run(a, evs).consecutiveFailures == Streak(Marks(a, evs))
  {
    var a := Initial(params, launched);
    if evs == [] {
      assert Marks(a, evs)[0..] == [];
    } else {
      var init := evs[..|evs| - 1];
      FailuresAreTheStreak(params, launched, init);
      StreakGrows(Marks(a, init), MarkOf(Run(a, init), evs[|evs| - 1]));
    }
  }

  lemma {:induction false} ParamsStay(a: AppView, evs: seq<Event>)
    ensures Run(a, evs).params == a.params
  {
    if evs != [] {
      ParamsStay(a, evs[..|evs| - 1]);
    }
  }

  /** When an app fails and its policy is consulted, the length of its streak decides: a restart is
      scheduled exactly if that many failures are allowed and failures are to be followed by a
      restart at all, and then after the delay of that attempt. */
  lemma StreakDecides(params: AppParams, launched: Option<AppRuntime>, evs: seq<Event>, exit: Event)
    requires exit.ExitEvent? && !Succeeded(exit.cause)
    requires Evaluated(Run(Initial(params, launched), evs), exit.tryRestart)
    ensures var after := Run(Initial(params, launched), evs + [exit]);
            var streak := Streak(Marks(Initial(params, launched), evs + [exit]));
            var policy := params.restart;
            && streak >= 1
            && (PendingDeadline(after.state).Some? <==>
                 && (policy.maxRestartAttempts.Some? ==> streak <= policy.maxRestartAttempts.value)
                 && !policy.onError.IsNever())
            && (PendingDeadline(after.state).Some? ==>
                 PendingDeadline(after.state).value == exit.now + policy.onError.DelayFor(streak) as real)
  {
    hide Marks, Streak, RestartDelay.DelayFor;
    var a := Initial(params, launched);
    FailuresAreTheStreak(params, launched, evs + [exit]);
    RunSnoc(a, evs, exit);
    ParamsStay(a, evs);
  }

  ghost predicate OneStreak(a: AppView, evs: seq<Event>) {
    forall i :: 0 <= i < |evs| ==> Marks(a, evs)[i] in {Failure, Neutral}
  }

  ghost predicate AwaitsFailureRestart(a: AppView) {
    PendingDeadline(a.state).Some? && !Succeeded(a.state.last.value.cause)
  }

  /** How many times a run restarts the app because of a failure. */
  ghost function FailureRestarts(a: AppView, evs: seq<Event>): nat {
    if evs == [] then 0
    else
      var before := Run(a, evs[..|evs| - 1]);
      FailureRestarts(a, evs[..|evs| - 1])
      + (if AwaitsFailureRestart(before) && Step(before, evs[|evs| - 1]).state.Running? then 1 else 0)
  }

  lemma OneStreakPrefix(a: AppView, evs: seq<Event>)
    requires evs != [] && OneStreak(a, evs)
    ensures OneStreak(a, evs[..|evs| - 1])
    ensures MarkOf(Run(a, evs[..|evs| - 1]), evs[|evs| - 1]) in {Failure, Neutral}
  {
    var init := evs[..|evs| - 1];
    assert Marks(a, evs)[|evs| - 1] in {Failure, Neutral};
    forall i | 0 <= i < |init| ensures Marks(a, init)[i] in {Failure, Neutral} {
      assert Marks(a, evs)[i] == Marks(a, init)[i];
    }
  }

  /** Each failure restart of a streak is paid for by a failure within the allowed attempts. */
  lemma {:induction false} RestartsArePaidFor(a: AppView, evs: seq<Event>)
    requires Sound(a) && OneStreak(a, evs) && a.params.restart.maxRestartAttempts.Some?
    ensures Run(a, evs).params == a.params
    ensures var m := a.params.restart.maxRestartAttempts.value;
            FailureRestarts(a, evs) + (if AwaitsFailureRestart(Run(a, evs)) then 1 else 0)
              + Min(a.consecutiveFailures, m)
            <= Min(Run(a, evs).consecutiveFailures, m) + (if AwaitsFailureRestart(a) then 1 else 0)
  {
    if evs != [] {
      OneStreakPrefix(a, evs);
      RestartsArePaidFor(a, evs[..|evs| - 1]);
      RunsAreSound(a, evs[..|evs| - 1]);
    }
  }

  /** Within one streak an app is restarted after failures at most `maxRestartAttempts` times. */
  lemma RestartsPerStreakAreBounded(a: AppView, evs: seq<Event>)
    requires Sound(a) && OneStreak(a, evs) && a.params.restart.maxRestartAttempts.Some?
    ensures FailureRestarts(a, evs) <= a.params.restart.maxRestartAttempts.value
  {
    RestartsArePaidFor(a, evs);
  }

  // Backoff along a streak

  /** The waits chosen after the failed exits of a run, in order. */
  ghost function Waits(a: AppView, evs: seq<Event>): seq<real> {
    if evs == [] then []
    else
      var before := Run(a, evs[..|evs| - 1]);
      var ev := evs[|evs| - 1];
      var after := Step(before, ev);
      Waits(a, evs[..|evs| - 1])
      + (if ev.ExitEvent? && before.state.Running? && AwaitsFailureRestart(after)
         then [PendingDeadline(after.state).value - ev.now] else [])
  }

  lemma {:induction false} FailuresGrow(a: AppView, evs: seq<Event>)
    requires OneStreak(a, evs)
    ensures Run(a, evs).consecutiveFailures >= a.consecutiveFailures
  {
    if evs != [] {
      OneStreakPrefix(a, evs);
      FailuresGrow(a, evs[..|evs| - 1]);
    }
  }

  /** Along a streak of failures the waits lie between the delays of its first and its latest
      attempt, never shrink and never exceed the cap. */
  lemma {:induction false} WaitsGrow(a: AppView, evs: seq<Event>)
    requires OneStreak(a, evs) && a.params.restart.onError.Backs()
    ensures Run(a, evs).params == a.params
    ensures forall i :: 0 <= i < |Waits(a, evs)| ==>
              a.params.restart.onError.DelayFor(Max(a.consecutiveFailures, 1)) as real
              <= Waits(a, evs)[i]
              <= a.params.restart.onError.DelayFor(Max(Run(a, evs).consecutiveFailures, 1)) as real
    ensures forall i, j :: 0 <= i < j < |Waits(a, evs)| ==>
              Waits(a, evs)[i] <= Waits(a, evs)[j] <= a.params.restart.onError.Cap() as real
  {
    hide RestartDelay.DelayFor;
    if evs != [] {
      OneStreakPrefix(a, evs);
      var init := evs[..|evs| - 1];
      WaitsGrow(a, init);
      var d := a.params.restart.onError;
      FailuresGrow(a, init);
      DelayGrows(d, Max(a.consecutiveFailures, 1), Max(Run(a, init).consecutiveFailures, 1));
      DelayGrows(d, Max(Run(a, init).consecutiveFailures, 1), Max(Run(a, evs).consecutiveFailures, 1));
    }
  }

  /** The same for a whole streak, counted from the failed exit it begins with: the wait chosen
      for that exit is the shortest of the streak. */
  lemma StreakWaitsGrow(a: AppView, cause: ReturnState, uptime: real, now: Instant, evs: seq<Event>)
    requires Evaluated(a, true) && !Succeeded(cause) && a.params.restart.onError.Backs()
    requires var first := Exit(a, cause, uptime, now, true);
             AwaitsFailureRestart(first) && OneStreak(first, evs)
    ensures var first := Exit(a, cause, uptime, now, true);
            var waits := [PendingDeadline(first.state).value - now] + Waits(first, evs);
            forall i, j :: 0 <= i < j < |waits| ==> waits[i] <= waits[j] <= a.params.restart.onError.Cap() as real
  {
    hide RestartDelay.DelayFor;
    var first := Exit(a, cause, uptime, now, true);
    WaitsGrow(first, evs);
    DelayCapped(a.params.restart.onError, Max(Run(first, evs).consecutiveFailures, 1));
  }

  // Timing

  /** Event `j` of a run is an exit that scheduled the restart still pending at its end. */
  ghost predicate ScheduledBy(a: AppView, evs: seq<Event>, j: nat) {
    && j < |evs| && evs[j].ExitEvent?
    && Evaluated(Run(a, evs[..j]), evs[j].tryRestart)
    && var scheduled := Run(a, evs[..j + 1]);
       && Run(a, evs).state == scheduled.state
       && Run(a, evs).consecutiveFailures == scheduled.consecutiveFailures
       && var strategy := StrategyFor(a.params.restart, evs[j].cause);
          var deadline := evs[j].now + strategy.DelayFor(Max(scheduled.consecutiveFailures, 1)) as real;
          scheduled.state == Stopped(Some(LastExecutionInfo(evs[j].cause, Some(deadline))))
  }

  /** Behind every pending restart is the exit that scheduled it. */
  lemma {:induction false} PendingHasCause(params: AppParams, launched: Option<AppRuntime>, evs: seq<Event>)
    returns (j: nat)
    requires PendingDeadline(Run(Initial(params, launched), evs).state).Some?
    ensures ScheduledBy(Initial(params, launched), evs, j)
  {
    hide RestartDelay.DelayFor, RestartDelay.IsNever;
    var a, n := Initial(params, launched), |evs| - 1;
    var before := Run(a, evs[..n]);
    ParamsStay(a, evs[..n]);
    assert evs[..n + 1] == evs;
    if evs[n].ExitEvent? && before.state.Running? {
      j := n;
    } else {
      j := PendingHasCause(params, launched, evs[..n]);
      assert evs[..n][..j] == evs[..j] && evs[..n][..j + 1] == evs[..j + 1];
    }
  }

  /** In any life, an automatic restart is counted only in a restart phase that allows it, and only
      once the delay of its streak has gone by since the exit that scheduled it. */
  lemma RestartsWait(params: AppParams, launched: Option<AppRuntime>, evs: seq<Event>, ev: Event) returns (j: nat)
    requires var before := Run(Initial(params, launched), evs);
             Step(before, ev).restartCount != before.restartCount
    ensures ev.RestartPhase? && ev.allowed
    ensures ScheduledBy(Initial(params, launched), evs, j)
    ensures var a, exit := Initial(params, launched), evs[j];
            var streak := Streak(Marks(a, evs[..j + 1]));
            ev.now >= exit.now + StrategyFor(params.restart, exit.cause).DelayFor(Max(streak, 1)) as real
  {
    hide RestartDelay.DelayFor, Marks, Streak;
    var a := Initial(params, launched);
    j := PendingHasCause(params, launched, evs);
    FailuresAreTheStreak(params, launched, evs[..j + 1]);
  }

  /** A run that creates no runtime leaves an app running only if it was, with the same runtime. */
  lemma {:induction false} NothingCreatedNothingNew(a: AppView, evs: seq<Event>)
    ensures Run(a, evs).created >= a.created
    ensures Run(a, evs).created == a.created && Run(a, evs).state.Running? ==> Run(a, evs).state == a.state
  {
    if evs != [] {
      NothingCreatedNothingNew(a, evs[..|evs| - 1]);
    }
  }

  /** How many explicit starts of a run brought the app up. */
  ghost function Starts(a: AppView, evs: seq<Event>): nat {
    if evs == [] then 0
    else
      var init, ev := evs[..|evs| - 1], evs[|evs| - 1];
      Starts(a, init) + (if ev.StartEvent? && ev.launched.Some? && Run(a, init).state.Stopped? then 1 else 0)
  }

  /** Every runtime created was brought up by an explicit start or by a counted restart. */
  lemma {:induction false} EveryRuntimeHasACause(a: AppView, evs: seq<Event>)
    ensures var b := Run(a, evs);
            b.created - a.created == (b.restartCount - a.restartCount) + Starts(a, evs)
  {
    if evs != [] {
      EveryRuntimeHasACause(a, evs[..|evs| - 1]);
    }
  }

  /** How far an app can have come from one state to a later one: nothing is uncounted, a runtime is
      new only if one was created, and one is gone only if it was cleaned up. */
  ghost predicate Onward(before: AppView, after: AppView) {
    && after.params == before.params
    && before.restartCount <= after.restartCount
    && before.created - before.restartCount <= after.created - after.restartCount
    && before.cleaned <= after.cleaned
    && (after.created == before.created && after.state.Running? ==> after.state == before.state)
    && (after.cleaned == before.cleaned && before.state.Running? ==> after.state == before.state)
  }

  lemma StepIsOnward(a: AppView, ev: Event)
    ensures Onward(a, Step(a, ev))
  {
  }

  lemma OnwardTransitive(a: AppView, b: AppView, c: AppView)
    requires Onward(a, b) && Onward(b, c)
    ensures Onward(a, c)
  {
  }

  /** The same without an automatic restart. */
  ghost predicate NoRestart(before: AppView, after: AppView) {
    Onward(before, after) && after.restartCount == before.restartCount
  }

  lemma NoRestartTransitive(a: AppView, b: AppView, c: AppView)
    requires NoRestart(a, b) && NoRestart(b, c)
    ensures NoRestart(a, c)
  {
  }

  /** An app whose runtime was cleaned up, and that nobody started and nothing restarted, is down. */
  lemma RetiredIsDown(before: AppView, after: AppView)
    requires Sound(before) && Sound(after) && NoRestart(before, after)
    requires after.created == before.created && (before.state.Running? ==> after.cleaned > before.cleaned)
    ensures !after.state.Running?
  {
  }
}
