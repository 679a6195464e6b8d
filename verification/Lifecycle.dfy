/** The life of one supervised app as a state machine: Stopped, Stopped with a pending restart,
    or Running. Instants and durations are in milliseconds. */
module Lifecycle {
  import opened Basics
  import opened Restart

  type Instant = real

  datatype ReturnState = Completed(ret: int) | Abnormal(signal: int)

  datatype LastExecutionInfo = LastExecutionInfo(cause: ReturnState, restartDeadline: Option<Instant>)

  datatype AppRtTokens = AppRtTokens(pidfd: nat, stdout: nat, stderr: nat)

  datatype AppRuntime = AppRuntime(tokens: AppRtTokens, startedAt: Instant)

  datatype State = Stopped(last: Option<LastExecutionInfo>) | Running(rt: AppRuntime)

  datatype AppParams = AppParams(name: seq<byte>, oneshot: bool, autostart: bool, restart: RestartPolicy,
      logBufferSize: nat)

  /** Everything the lifecycle of an app depends on or changes. The last two fields count the
      runtime objects ever created for the app and those that went through cleanup. */
  datatype AppView = AppView(
    params: AppParams,
    state: State,
    stopRequested: bool,
    consecutiveFailures: nat,
    restartCount: nat,
    created: nat,
    cleaned: nat)

  function StoppedWithCause(cause: ReturnState): State {
    Stopped(Some(LastExecutionInfo(cause, None)))
  }

  predicate Succeeded(cause: ReturnState) {
    cause == Completed(0)
  }

  function PendingDeadline(s: State): Option<Instant> {
    match s
    case Stopped(Some(last)) => last.restartDeadline
    case _ => None
  }

  /** The runtime an app in state `s` runs, if it runs. */
  function RuntimeOf(s: State): Option<AppRuntime> {
    match s
    case Stopped(_) => None
    case Running(rt) => Some(rt)
  }

  /** Time gone by between two readings of the clock, never negative. */
  function Elapsed(since: Instant, now: Instant): real {
    if now <= since then 0.0 else now - since
  }

  /** The strategy that governs the outcome `cause`. */
  function StrategyFor(policy: RestartPolicy, cause: ReturnState): RestartDelay {
    if Succeeded(cause) then policy.onSuccess else policy.onError
  }

  /** An app as created, with the runtime it was autostarted with, if any. */
  function Initial(params: AppParams, launched: Option<AppRuntime>): AppView {
    match launched
    case Some(rt) => AppView(params, Running(rt), false, 0, 0, 1, 0)
    case None => AppView(params, Stopped(None), false, 0, 0, 0, 0)
  }

  /** An explicit start; `launched` is the runtime the system could provide, if any. */
  function Start(a: AppView, launched: Option<AppRuntime>): AppView {
    if a.state.Running? || launched.None? then a
    else a.(state := Running(launched.value), consecutiveFailures := 0, stopRequested := false,
        created := a.created + 1)
  }

  /** An explicit stop: signals a running app or cancels a pending restart. */
  function Stop(a: AppView): AppView {
    match a.state
    case Running(_) => a.(stopRequested := true)
    case Stopped(Some(LastExecutionInfo(cause, Some(_)))) => a.(state := StoppedWithCause(cause), stopRequested := true)
    case Stopped(_) => a
  }

  /** A pass of the restart phase. */
  function MaybeRestart(a: AppView, now: Instant, allowed: bool, launched: Option<AppRuntime>): AppView {
    match a.state
    case Stopped(Some(LastExecutionInfo(cause, Some(deadline)))) =>
      if !allowed then a.(state := StoppedWithCause(cause))
      else if now < deadline then a
      else if launched.None? then a.(state := StoppedWithCause(cause))
      else a.(state := Running(launched.value), restartCount := a.restartCount + 1, created := a.created + 1)
    case _ => a
  }

  /** The consecutive failures after a run of length `uptime` that ended with `cause`. */
  function FailuresAfter(a: AppView, cause: ReturnState, uptime: real): nat {
    var base := if Succeeded(cause) || uptime >= a.params.restart.resetAfterMs as real then 0
        else a.consecutiveFailures;
    if Succeeded(cause) then base else base + 1
  }

  /** The restart policy applied to an app that has just stopped with `cause`. */
  function ScheduleRestart(a: AppView, cause: ReturnState, uptime: real, now: Instant): AppView {
    var policy := a.params.restart;
    var a' := a.(consecutiveFailures := FailuresAfter(a, cause, uptime));
    var strategy := StrategyFor(policy, cause);
    if policy.maxRestartAttempts.Some? && a'.consecutiveFailures > policy.maxRestartAttempts.value then a'
    else if strategy.IsNever() then a'
    else
      var delay := strategy.DelayFor(Max(a'.consecutiveFailures, 1));
      a'.(state := Stopped(Some(LastExecutionInfo(cause, Some(now + delay as real)))))
  }

  /** Whether an exit of the app is put to the restart policy. */
  predicate Evaluated(a: AppView, tryRestart: bool) {
    a.state.Running? && tryRestart && !a.params.oneshot && !a.stopRequested
  }

  /** The process of a running app has exited after `uptime`; its runtime is cleaned up. */
  function Exit(a: AppView, cause: ReturnState, uptime: real, now: Instant, tryRestart: bool): AppView {
    if !a.state.Running? then a
    else
      var stopped := a.(state := StoppedWithCause(cause), cleaned := a.cleaned + 1);
      if Evaluated(a, tryRestart) then ScheduleRestart(stopped, cause, uptime, now) else stopped
  }

  datatype Event =
    | StartEvent(launched: Option<AppRuntime>)
    | StopEvent
    | RestartPhase(now: Instant, allowed: bool, launched: Option<AppRuntime>)
    | ExitEvent(cause: ReturnState, uptime: real, now: Instant, tryRestart: bool)

  function Step(a: AppView, ev: Event): AppView {
    match ev
    case StartEvent(launched) => Start(a, launched)
    case StopEvent => Stop(a)
    case RestartPhase(now, allowed, launched) => MaybeRestart(a, now, allowed, launched)
    case ExitEvent(cause, uptime, now, tryRestart) => Exit(a, cause, uptime, now, tryRestart)
  }

  function Run(a: AppView, evs: seq<Event>): AppView {
    if evs == [] then a else Step(Run(a, evs[..|evs| - 1]), evs[|evs| - 1])
  }

  lemma RunSnoc(a: AppView, evs: seq<Event>, ev: Event)
    ensures Run(a, evs + [ev]) == Step(Run(a, evs), ev)
  {
    assert (evs + [ev])[..|evs|] == evs;
  }

  lemma {:induction false} RunSplit(a: AppView, evs: seq<Event>, more: seq<Event>)
    ensures Run(a, evs + more) == Run(Run(a, evs), more)
  {
    if more == [] {
      assert evs + more == evs;
    } else {
      var init := more[..|more| - 1];
      RunSplit(a, evs, init);
      assert (evs + more)[..|evs + more| - 1] == evs + init;
    }
  }
}
