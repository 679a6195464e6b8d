/** A supervised app: its lifecycle state, its counters and its log ring, updated in place. */
module Apps {
  import opened Basics
  import opened Lifecycle
  import opened LifecycleRuns
  import opened LogRing
  import opened TokenSlab
  import Kernel

  const SPLICE_MAX_XFER_SIZE: nat := 16384

  datatype Stdio = Stdout | Stderr

  datatype Signal = SigTerm | SigKill

  /** The signals a stop sends to an app in state `s`. */
  function SignalsDue(s: State, force: bool): seq<Signal> {
    match s
    case Running(_) => [if force then SigKill else SigTerm]
    case Stopped(_) => []
  }

  datatype AppErr = RuntimeError | AlreadyRunning

  datatype Result<+T> = Ok(value: T) | Err(error: AppErr)

  /** What `waitpid` reports of a process, and the two readings of the clock that follow: for the
      uptime of the process, and for the deadline of its restart. */
  datatype ExitReport = ExitReport(cause: ReturnState, at: Instant, decidedAt: Instant)

  /** What the system has for an app when an event arrives: whether the event says readable, the two
      pipes, and what `waitpid` would report. */
  datatype AppEvent = AppEvent(
    readable: bool,
    stdout: Kernel.Pipe,
    stderr: Kernel.Pipe,
    waited: Option<ExitReport>)

  /** All there is to say about an app at one moment: its lifecycle, the signals sent to it, its log
      and what of it came from which stream, what the system has in store for it, how many launches
      were tried, and how many processes were spawned for it and how many of these orphaned. */
  datatype AppSnapshot = AppSnapshot(
    view: AppView,
    signals: seq<Signal>,
    log: seq<byte>,
    stdout: seq<byte>,
    stderr: seq<byte>,
    host: Kernel.Host,
    launches: nat,
    spawned: nat,
    orphaned: nat)

  // Launches

  /** No call of a launch fails. */
  predicate Unhindered(launch: Kernel.Launch) {
    launch.forks && launch.opens && launch.registered >= 3
  }

  /** A launch goes through: no call of it fails, and there are three tokens left. */
  predicate Completes(launch: Kernel.Launch, pool: Pool) {
    Unhindered(launch) && pool.Has(3)
  }

  lemma CompletesIs(launch: Kernel.Launch, pool: Pool)
    ensures Completes(launch, pool) <==>
              launch.forks && launch.opens && launch.registered >= 3 && pool.out + 3 <= pool.capacity
  {
  }

  /** How many tokens a launch that does not go through has taken by then. */
  function Wasted(launch: Kernel.Launch, pool: Pool): nat {
    if launch.forks && launch.opens then Min(pool.Left(), launch.registered + 1) else 0
  }

  /** What a launch makes of the pool: three tokens are taken, or those it had come to leak. */
  function AfterLaunch(launch: Kernel.Launch, pool: Pool): Pool {
    if Completes(launch, pool) then pool.Take(3) else pool.Leak(Wasted(launch, pool))
  }

  /** A launch never leaks more than three tokens. */
  lemma LaunchIsPaidFor(launch: Kernel.Launch, pool: Pool)
    ensures PaidFor(pool.lost, AfterLaunch(launch, pool).lost)
  {
  }

  /** The app's next launch. */
  function NextLaunch(a: AppSnapshot): Kernel.Launch {
    a.host.launches(a.launches)
  }

  /** The app once its next launch has been tried, having come to `view`. A process spawned by a launch
      that does not go through is orphaned. */
  function Launched(a: AppSnapshot, view: AppView, pool: Pool): AppSnapshot {
    var forked, up := NextLaunch(a).forks, Completes(NextLaunch(a), pool);
    a.(view := view,
       launches := a.launches + 1,
       spawned := a.spawned + (if forked then 1 else 0),
       orphaned := a.orphaned + (if forked && !up then 1 else 0))
  }

  /** A state is what the launch makes of it: running since the launch began, if the launch went through. */
  predicate ComesUp(launch: Kernel.Launch, pool: Pool, after: State) {
    && (after.Running? <==> Completes(launch, pool))
    && (after.Running? ==> after.rt.startedAt == launch.startedAt)
  }

  /** What an explicit start does to an app and to the pool of tokens. */
  ghost predicate StartOutcome(before: AppSnapshot, after: AppSnapshot, pool: Pool, r: Result<()>) {
    if before.view.state.Running? then after == before && r == Err(AlreadyRunning)
    else
      && ComesUp(NextLaunch(before), pool, after.view.state)
      && after.view == Lifecycle.Start(before.view, RuntimeOf(after.view.state))
      && after == Launched(before, after.view, pool)
      && r == if after.view.state.Running? then Ok(()) else Err(RuntimeError)
  }

  function AfterStart(before: AppSnapshot, pool: Pool): Pool {
    if before.view.state.Running? then pool else AfterLaunch(NextLaunch(before), pool)
  }

  /** An explicit start spawns a process that nobody will ever reap exactly if the app is down, the fork
      goes through, and anything after it does not: opening the pidfd, a registration, or finding three
      tokens. */
  lemma StartOrphans(before: AppSnapshot, after: AppSnapshot, pool: Pool, r: Result<()>)
    requires StartOutcome(before, after, pool, r)
    ensures var launch := NextLaunch(before);
            after.orphaned > before.orphaned <==>
              && before.view.state.Stopped? && launch.forks
              && (!launch.opens || launch.registered < 3 || !pool.Has(3))
  {
  }

  /** What an explicit stop does, and whether there was anything to stop. */
  ghost predicate StopOutcome(before: AppSnapshot, after: AppSnapshot, force: bool, r: Result<bool>) {
    && after == before.(
         view := Lifecycle.Stop(before.view),
         signals := before.signals + SignalsDue(before.view.state, force))
    && r == if before.view.state.Stopped? then Ok(PendingDeadline(before.view.state).Some?)
            else if before.host.delivers(|before.signals|) then Ok(true)
            else Err(RuntimeError)
  }

  /** A pass of the restart phase at `now` launches the app. */
  predicate RestartDue(a: AppView, now: Instant, allowed: bool) {
    allowed && PendingDeadline(a.state).Some? && PendingDeadline(a.state).value <= now
  }

  /** What a pass of the restart phase does to an app. */
  ghost predicate PhaseOutcome(before: AppSnapshot, after: AppSnapshot, now: Instant, allowed: bool, pool: Pool) {
    if RestartDue(before.view, now, allowed) then
      && ComesUp(NextLaunch(before), pool, after.view.state)
      && after.view == Lifecycle.MaybeRestart(before.view, now, true, RuntimeOf(after.view.state))
      && after == Launched(before, after.view, pool)
    else
      after == before.(view := Lifecycle.MaybeRestart(before.view, now, allowed, None))
  }

  function AfterPhase(before: AppSnapshot, now: Instant, allowed: bool, pool: Pool): Pool {
    if RestartDue(before.view, now, allowed) then AfterLaunch(NextLaunch(before), pool) else pool
  }

  // Output and exits

  /** The app once all that two pipes yield has been moved to its log, standard output first, each byte
      counted for its stream. */
  function Drained(a: AppSnapshot, out: seq<byte>, err: seq<byte>): AppSnapshot {
    a.(log := a.log + out + err, stdout := a.stdout + out, stderr := a.stderr + err)
  }

  /** The process of a running app has exited. */
  ghost predicate Exited(before: AppView, after: AppView, exit: ExitReport, tryRestart: bool) {
    && before.state.Running?
    && var uptime := Elapsed(before.state.rt.startedAt, exit.at);
       after == Lifecycle.Exit(before, exit.cause, uptime, exit.decidedAt, tryRestart)
  }

  /** What an event does to an app. Only the app holding the token reacts, and only to a readable
      event: a stream's token moves all that its pipe yields to the log, and the pidfd's token, once
      `waitpid` reports an exit, moves what both yield and retires the process. */
  ghost predicate PollOutcome(before: AppSnapshot, after: AppSnapshot, token: Token, event: AppEvent, tryRestart: bool)
  {
    var held := Held(before.view.state);
    if token !in TokenSet(held) || !event.readable then after == before
    else if token == held.value.pidfd then
      match event.waited
      case None => after == before
      case Some(exit) =>
        && Exited(before.view, after.view, exit, tryRestart)
        && after == Drained(before, event.stdout.Yield(), event.stderr.Yield()).(view := after.view)
    else if token == held.value.stdout then after == Drained(before, event.stdout.Yield(), [])
    else after == Drained(before, [], event.stderr.Yield())
  }

  /** The one event noted between two traces is an exit. */
  ghost predicate ExitNoted(before: seq<Event>, after: seq<Event>, exit: ExitReport, tryRestart: bool) {
    && |after| == |before| + 1 && before < after
    && var ev := after[|before|];
    ev.ExitEvent? && ev.cause == exit.cause && ev.now == exit.decidedAt && ev.tryRestart == tryRestart
  }

  /** The one event noted between two traces is a pass of the restart phase. */
  ghost predicate PhaseNoted(before: seq<Event>, after: seq<Event>, now: Instant, allowed: bool) {
    && |after| == |before| + 1 && before < after
    && var ev := after[|before|];
    ev.RestartPhase? && ev.now == now && ev.allowed == allowed
  }

  /** The bytes of a log that came from one stream, in order. */
  function Picked(log: seq<byte>, origins: seq<Stdio>, which: Stdio): seq<byte>
    requires |origins| == |log|
  {
    if log == [] then []
    else
      var n := |log| - 1;
      Picked(log[..n], origins[..n], which) + (if origins[n] == which then [log[n]] else [])
  }

  lemma {:induction false} PickedGrows(log: seq<byte>, origins: seq<Stdio>, bytes: seq<byte>, from: Stdio, which: Stdio)
    requires |origins| == |log|
    ensures Picked(log + bytes, origins + seq(|bytes|, _ => from), which)
            == Picked(log, origins, which) + (if which == from then bytes else [])
  {
    if bytes == [] {
      assert log + bytes == log && origins + seq(|bytes|, _ => from) == origins;
    } else {
      var n := |bytes| - 1;
      PickedGrows(log, origins, bytes[..n], from, which);
      assert (log + bytes)[..|log| + n] == log + bytes[..n];
      assert (origins + seq(|bytes|, _ => from))[..|log| + n] == origins + seq(n, _ => from);
    }
  }

  /** A log that is an order-preserving merge of two streams. */
  ghost predicate Merged(log: seq<byte>, stdout: seq<byte>, stderr: seq<byte>) {
    exists origins: seq<Stdio> ::
      |origins| == |log| && Picked(log, origins, Stdout) == stdout && Picked(log, origins, Stderr) == stderr
  }

  /** Leaves the tokens acquired by a launch that failed allocated, with nobody to free them. */
  ghost method Forget(id: nat, held: seq<Token>, slab: MioTokenSlab)
    requires slab.Valid() && HoldsExactly(slab.owner, id, held)
    modifies slab
    ensures slab.Valid() && HoldsExactly(slab.owner, id, [])
    ensures OthersKept(old(slab.owner), slab.owner, AppParty(id))
    ensures |slab.owner| == |old(slab.owner)| && slab.failures == old(slab.failures)
    ensures |LeakedTokens(slab.owner)| == |LeakedTokens(old(slab.owner))| + |held|
  {
    if held != [] {
      var n := |held| - 1;
      OneMoreLeaked(slab.owner, held[n]);
      slab.Abandon(held[n]);
      Forget(id, held[..n], slab);
    }
  }

  /** Acquires and registers the next token of a launch. Without a token left, or if its descriptor
      cannot be registered, all tokens of the launch leak. */
  method AcquireToken(id: nat, ghost held: seq<Token>, registers: bool, slab: MioTokenSlab)
    returns (t: Option<Token>)
    requires slab.Valid() && HoldsExactly(slab.owner, id, held)
    modifies slab
    ensures slab.Valid() && OthersKept(old(slab.owner), slab.owner, AppParty(id))
    ensures HoldsExactly(slab.owner, id, if t.Some? then held + [t.value] else [])
    ensures var pool := old(slab.Now());
            && (t.Some? <==> registers && pool.Has(1))
            && slab.Now() == if t.Some? then pool.Take(1)
                             else if pool.Has(1) then pool.Leak(1).(lost := pool.Leak(|held| + 1).lost)
                             else pool.(lost := pool.Leak(|held|).lost)
  {
    hide HoldsExactly, OthersKept, LeakedTokens, MioTokenSlab.Valid;
    ghost var before := slab.owner;
    t := slab.Allocate(AppFd(id, |held|));
    if t.None? {
      Forget(id, held, slab);
      slab.Fail();
      return;
    }
    HoldsMore(before, id, held, t.value);
    ghost var after := slab.owner;
    if !registers {
      Forget(id, held + [t.value], slab);
      slab.Fail();
      OthersKeptTransitive(before, after, slab.owner, AppParty(id));
      return None;
    }
  }

  /** Acquires the three tokens of a launch. */
  method AcquireTokens(id: nat, registered: nat, slab: MioTokenSlab) returns (r: Option<AppRtTokens>)
    requires slab.Valid() && AppClaims(slab.owner, id, None)
    modifies slab
    ensures slab.Valid() && OthersKept(old(slab.owner), slab.owner, AppParty(id))
    ensures AppClaims(slab.owner, id, r)
    ensures var pool := old(slab.Now());
            && (r.Some? <==> registered >= 3 && pool.Has(3))
            && slab.Now() == if r.Some? then pool.Take(3) else pool.Leak(Min(pool.Left(), registered + 1))
  {
    hide AppClaims, OthersKept, HoldsExactly, LeakedTokens, MioTokenSlab.Valid;
    ghost var before := slab.owner;
    HeldNone(before, id);
    var pidfd := AcquireToken(id, [], registered > 0, slab);
    HeldNone(slab.owner, id);
    if pidfd.None? {
      return None;
    }
    ghost var afterPidfd := slab.owner;
    ghost var held := [] + [pidfd.value];
    var stdout := AcquireToken(id, held, registered > 1, slab);
    OthersKeptTransitive(before, afterPidfd, slab.owner, AppParty(id));
    HeldNone(slab.owner, id);
    if stdout.None? {
      return None;
    }
    ghost var afterStdout := slab.owner;
    held := held + [stdout.value];
    var stderr := AcquireToken(id, held, registered > 2, slab);
    OthersKeptTransitive(before, afterStdout, slab.owner, AppParty(id));
    HeldNone(slab.owner, id);
    if stderr.None? {
      return None;
    }
    HeldThree(slab.owner, id, held + [stderr.value]);
    return Some(AppRtTokens(pidfd.value, stdout.value, stderr.value));
  }

  /** Launches an app's process and registers its three descriptors. It succeeds exactly if no call of
      the launch fails and three tokens are left; otherwise the tokens it had come to leak. */
  method LaunchRuntime(id: nat, launch: Kernel.Launch, slab: MioTokenSlab) returns (r: Option<AppRuntime>)
    requires slab.Valid() && AppClaims(slab.owner, id, None)
    modifies slab
    ensures slab.Valid() && OthersKept(old(slab.owner), slab.owner, AppParty(id))
    ensures AppClaims(slab.owner, id, if r.Some? then Some(r.value.tokens) else None)
    ensures r.Some? <==> Completes(launch, old(slab.Now()))
    ensures r.Some? ==> r.value.startedAt == launch.startedAt
    ensures slab.Now() == AfterLaunch(launch, old(slab.Now()))
  {
    hide AppClaims, OthersKept, LeakedTokens, MioTokenSlab.Valid;
    OthersKeptSelf(slab.owner, AppParty(id));
    if !launch.forks {
      slab.Fail();
      return None;
    }
    if !launch.opens {
      slab.Fail();
      return None;
    }
    var tokens := AcquireTokens(id, launch.registered, slab);
    if tokens.None? {
      return None;
    }
    return Some(AppRuntime(tokens.value, launch.startedAt));
  }

  /** Cleans up a runtime: its three tokens go back to the slab. */
  method StopRuntime(id: nat, rt: AppRuntime, slab: MioTokenSlab)
    requires slab.Valid() && AppClaims(slab.owner, id, Some(rt.tokens))
    modifies slab
    ensures slab.Valid() && OthersKept(old(slab.owner), slab.owner, AppParty(id))
    ensures AppClaims(slab.owner, id, None)
    ensures slab.Now().Take(3) == old(slab.Now())
  {
    hide AppClaims, OthersKept, LeakedTokens, MioTokenSlab.Valid;
    HoldsNoMore(slab.owner, id, rt.tokens);
    slab.Free(rt.tokens.pidfd);
    slab.Free(rt.tokens.stdout);
    slab.Free(rt.tokens.stderr);
  }

  /** What is true of an app at any moment. */
  ghost predicate SoundSnapshot(a: AppSnapshot) {
    && Sound(a.view)
    && Merged(a.log, a.stdout, a.stderr)
    && a.spawned == (if a.view.state.Running? then 1 else 0) + a.view.cleaned + a.orphaned
  }

  class App {
    /** Position in the daemon's list of apps. */
    const id: nat
    const params: AppParams
    const log: CircularBuffer
    /** What the system has in store for the app, how many of its launches have been tried, and the
        signals sent to its processes. */
    const host: Kernel.Host
    var launches: nat
    var signals: seq<Signal>
    var state: State
    var stopRequested: bool
    var consecutiveFailures: nat
    var restartCount: nat
    var stdoutBytes: nat
    var stderrBytes: nat

    /** The runtime the app was autostarted with, and what has happened to the app since. */
    ghost const autostarted: Option<AppRuntime>
    ghost var trace: seq<Event>
    /** Runtime objects created for this app, and cleaned up. */
    ghost var created: nat
    ghost var cleaned: nat
    /** Where each byte of the log came from, and all bytes moved out of the two streams. */
    ghost var origins: seq<Stdio>
    ghost var fromStdout: seq<byte>
    ghost var fromStderr: seq<byte>
    /** Processes spawned, and those of them left with nobody to reap. */
    ghost var spawned: nat
    ghost var orphaned: nat

    ghost function View(): AppView
      reads `state, `stopRequested, `consecutiveFailures, `restartCount, `created, `cleaned
    {
      AppView(params, state, stopRequested, consecutiveFailures, restartCount, created, cleaned)
    }

    ghost function Snap(): AppSnapshot
      reads this, log
    {
      AppSnapshot(View(), signals, log.history, fromStdout, fromStderr, host, launches, spawned, orphaned)
    }

    /** The log is an order-preserving merge of the two streams, and the counters count it. */
    ghost predicate LogValid()
      reads `stdoutBytes, `stderrBytes, `origins, `fromStdout, `fromStderr, log, log.mmap.file
    {
      && log.Valid()
      && |origins| == |log.history|
      && Picked(log.history, origins, Stdout) == fromStdout
      && Picked(log.history, origins, Stderr) == fromStderr
      && stdoutBytes == |fromStdout| && stderrBytes == |fromStderr|
      && log.writePos == stdoutBytes + stderrBytes
    }

    /** What the lifecycle makes of everything that happened to the app so far. */
    ghost function Lived(): AppView
      reads `trace
    {
      Run(Initial(params, autostarted), trace)
    }

    /** The app is where the lifecycle takes it after everything that happened to it, and every
        process spawned for it was taken up by a runtime or orphaned. */
    ghost predicate Valid()
      reads this, log, log.mmap.file
    {
      LogValid() && View() == Lived() && spawned == created + orphaned
    }

    /** Whatever has happened to a valid app: its lifecycle is sound, its log is a merge of its two
        streams, and every process spawned for it is supervised, was reaped, or is orphaned. */
    lemma SoundNow()
      requires Valid()
      ensures SoundSnapshot(Snap())
    {
      AppsAreSound(params, autostarted, trace);
      assert Picked(log.history, origins, Stdout) == fromStdout;
    }

    /** Notes an event that has just been handled. */
    ghost method Record(ev: Event)
      requires View() == Step(Lived(), ev)
      modifies `trace
      ensures trace == old(trace) + [ev] && View() == Lived()
    {
      RunSnoc(Initial(params, autostarted), trace, ev);
      trace := trace + [ev];
    }

    /** A new app, brought up with the runtime of its first launch if that was tried. */
    constructor (id: nat, params: AppParams, host: Kernel.Host, launched: Option<AppRuntime>, log: CircularBuffer)
      requires log.Valid() && log.history == []
      ensures Valid() && trace == [] && this.log == log && this.id == id && this.params == params && this.host == host
      ensures state == Initial(params, launched).state
      ensures launches == spawned == (if launched.Some? then 1 else 0) && orphaned == 0
      ensures consecutiveFailures == restartCount == 0 && !stopRequested && signals == []
      ensures stdoutBytes == stderrBytes == 0
    {
      this.id, this.params, this.host, this.log := id, params, host, log;
      state := match launched case Some(rt) => Running(rt) case None => Stopped(None);
      launches := if launched.Some? then 1 else 0;
      stopRequested, consecutiveFailures, restartCount := false, 0, 0;
      stdoutBytes, stderrBytes := 0, 0;
      autostarted, trace := launched, [];
      created, cleaned := if launched.Some? then 1 else 0, 0;
      signals := [];
      origins, fromStdout, fromStderr := [], [], [];
      spawned, orphaned := if launched.Some? then 1 else 0, 0;
    }

    /** The app is as its configuration has it at the beginning. */
    ghost predicate AsConfigured(config: AppParams, host: Kernel.Host)
      reads this, log
    {
      && params == config && this.host == host && log.capacity == config.logBufferSize
      && (state.Running? <==> config.autostart) && (state.Stopped? ==> state == Stopped(None))
      && launches == spawned == (if config.autostart then 1 else 0) && orphaned == 0
      && consecutiveFailures == restartCount == 0 && !stopRequested && signals == []
      && stdoutBytes == stderrBytes == 0 && log.history == []
    }

    /** Counts a launch that has been tried, and its process. */
    method NoteLaunch(ghost up: bool)
      modifies `launches, `spawned, `orphaned
      ensures launches == old(launches) + 1
      ensures var forked := host.launches(old(launches)).forks;
              && spawned == old(spawned) + (if forked then 1 else 0)
              && orphaned == old(orphaned) + (if forked && !up then 1 else 0)
    {
      ghost var forked := host.launches(launches).forks;
      spawned := spawned + if forked then 1 else 0;
      orphaned := orphaned + if forked && !up then 1 else 0;
      launches := launches + 1;
    }

    /** Takes up the runtime of an explicit start, if there is one. */
    method Begin(launched: Option<AppRuntime>, ghost pool: Pool)
      requires Valid() && state.Stopped?
      requires launched.Some? <==> Completes(NextLaunch(Snap()), pool)
      requires launched.Some? ==> launched.value.startedAt == NextLaunch(Snap()).startedAt
      modifies this
      ensures Valid() && Held(state) == (if launched.Some? then Some(launched.value.tokens) else None)
      ensures StartOutcome(old(Snap()), Snap(), pool, if launched.Some? then Ok(()) else Err(RuntimeError))
      ensures trace == old(trace) + [StartEvent(launched)] && RuntimeOf(state) == launched
    {
      hide LogValid, Lived;
      NoteLaunch(launched.Some?);
      if launched.Some? {
        state := Running(launched.value);
        created := created + 1;
        consecutiveFailures := 0;
        stopRequested := false;
      }
      Record(StartEvent(launched));
    }

    /** Explicit start. Refused while running; a failed launch leaves the lifecycle as it was. */
    method Start(slab: MioTokenSlab) returns (r: Result<()>)
      requires Valid() && slab.Valid() && AppClaims(slab.owner, id, Held(state))
      modifies this, slab
      ensures Valid() && slab.Valid() && AppClaims(slab.owner, id, Held(state))
      ensures OthersKept(old(slab.owner), slab.owner, AppParty(id))
      ensures StartOutcome(old(Snap()), Snap(), old(slab.Now()), r)
      ensures slab.Now() == AfterStart(old(Snap()), old(slab.Now()))
      ensures trace == old(trace)
              || (old(state).Stopped? && trace == old(trace) + [StartEvent(RuntimeOf(state))])
      ensures old(state).Running? ==> state == old(state) && r == Err(AlreadyRunning)
      ensures old(state).Stopped? ==>
                var launch, pool := host.launches(old(launches)), old(slab.Now());
                && (r.Ok? <==>
                      launch.forks && launch.opens && launch.registered >= 3 && pool.out + 3 <= pool.capacity)
                && if r.Ok? then
                     && state.Running? && state.rt.startedAt == launch.startedAt
                     && consecutiveFailures == 0 && !stopRequested
                   else
                     && state == old(state) && consecutiveFailures == old(consecutiveFailures)
                     && stopRequested == old(stopRequested)
    {
      hide Valid, AppClaims, OthersKept, MioTokenSlab.Valid, LeakedTokens, Completes, AfterLaunch;
      OthersKeptSelf(slab.owner, AppParty(id));
      match state {
        case Running(_) =>
          return Err(AlreadyRunning);
        case Stopped(_) =>
          ghost var pool := slab.Now();
          var launched := LaunchRuntime(id, host.launches(launches), slab);
          CompletesIs(host.launches(launches), pool);
          Begin(launched, pool);
          return if launched.Some? then Ok(()) else Err(RuntimeError);
      }
    }

    /** Explicit stop. Signals a running app, cancels a pending restart, and from then on keeps
        the app from being restarted. Says whether there was anything to stop. */
    method Stop(force: bool) returns (r: Result<bool>)
      requires Valid()
      modifies this
      ensures Valid() && trace == old(trace) + [StopEvent]
      ensures StopOutcome(old(Snap()), Snap(), force, r)
      ensures match old(state)
              case Running(_) =>
                signals == old(signals) + [if force then SigKill else SigTerm] && state == old(state) && stopRequested
              case Stopped(Some(LastExecutionInfo(cause, Some(_)))) =>
                && signals == old(signals) && stopRequested
                && state == State.Stopped(Some(LastExecutionInfo(cause, None)))
              case Stopped(_) => signals == old(signals) && state == old(state) && stopRequested == old(stopRequested)
    {
      hide LogValid, Lived;
      match state {
        case Running(_) =>
          var signal := if force then SigKill else SigTerm;
          var signalled := host.delivers(|signals|);
          signals := signals + [signal];
          stopRequested := true;
          Record(StopEvent);
          return if signalled then Ok(true) else Err(RuntimeError);
        case Stopped(Some(LastExecutionInfo(cause, Some(_)))) =>
          state := StoppedWithCause(cause);
          stopRequested := true;
          Record(StopEvent);
          return Ok(true);
        case Stopped(_) =>
          Record(StopEvent);
          return Ok(false);
      }
    }

    /** Gives up a pending restart. */
    method Cancel(ghost now: Instant, ghost pool: Pool)
      requires Valid() && PendingDeadline(state).Some?
      modifies `state, `trace
      ensures Valid() && Held(state) == None
      ensures PhaseOutcome(old(Snap()), Snap(), now, false, pool)
      ensures PhaseNoted(old(trace), trace, now, false)
    {
      hide LogValid, Lived;
      state := StoppedWithCause(state.last.value.cause);
      Record(RestartPhase(now, false, None));
    }

    /** Takes up the runtime of a restart that was due, if there is one, and gives up otherwise. */
    method Resume(ghost now: Instant, launched: Option<AppRuntime>, ghost pool: Pool)
      requires Valid() && RestartDue(View(), now, true)
      requires launched.Some? <==> Completes(NextLaunch(Snap()), pool)
      requires launched.Some? ==> launched.value.startedAt == NextLaunch(Snap()).startedAt
      modifies this
      ensures Valid() && Held(state) == (if launched.Some? then Some(launched.value.tokens) else None)
      ensures PhaseOutcome(old(Snap()), Snap(), now, true, pool)
      ensures PhaseNoted(old(trace), trace, now, true)
    {
      hide LogValid, Lived;
      NoteLaunch(launched.Some?);
      match launched {
        case Some(rt) =>
          restartCount := restartCount + 1;
          created := created + 1;
          state := Running(rt);
        case None =>
          state := StoppedWithCause(state.last.value.cause);
      }
      Record(RestartPhase(now, true, launched));
    }

    /** One pass of the restart phase over this app. */
    method MaybeRestart(now: Instant, slab: MioTokenSlab, allowRestart: bool)
      requires Valid() && slab.Valid() && AppClaims(slab.owner, id, Held(state))
      modifies this, slab
      ensures Valid() && slab.Valid() && AppClaims(slab.owner, id, Held(state))
      ensures OthersKept(old(slab.owner), slab.owner, AppParty(id))
      ensures PhaseOutcome(old(Snap()), Snap(), now, allowRestart, old(slab.Now()))
      ensures slab.Now() == AfterPhase(old(Snap()), now, allowRestart, old(slab.Now()))
      ensures trace == old(trace) || PhaseNoted(old(trace), trace, now, allowRestart)
      ensures match old(state)
              case Stopped(Some(LastExecutionInfo(cause, Some(deadline)))) =>
                if allowRestart && now < deadline then state == old(state) && launches == old(launches)
                else
                  var launch, pool := host.launches(old(launches)), old(slab.Now());
                  && launches == old(launches) + (if allowRestart then 1 else 0)
                  && if allowRestart && launch.forks && launch.opens && launch.registered >= 3
                        && pool.out + 3 <= pool.capacity then
                       && state.Running? && state.rt.startedAt == launch.startedAt
                       && restartCount == old(restartCount) + 1
                     else
                       && state == State.Stopped(Some(LastExecutionInfo(cause, None)))
                       && restartCount == old(restartCount)
              case _ => state == old(state) && launches == old(launches) && restartCount == old(restartCount)
    {
      hide Valid, AppClaims, OthersKept, MioTokenSlab.Valid, LeakedTokens, Completes, AfterLaunch;
      OthersKeptSelf(slab.owner, AppParty(id));
      match state {
        case Stopped(Some(LastExecutionInfo(cause, Some(deadline)))) =>
          if !allowRestart {
            Cancel(now, slab.Now());
            return;
          }
          if now < deadline {
            return;
          }
          ghost var pool := slab.Now();
          var runtime := LaunchRuntime(id, host.launches(launches), slab);
          CompletesIs(host.launches(launches), pool);
          Resume(now, runtime, pool);
        case _ =>
      }
    }

    /** Applies the restart policy at `now` to an app that has just stopped. */
    method ScheduleRestart(cause: ReturnState, uptime: real, now: Instant)
      requires state == StoppedWithCause(cause)
      modifies `state, `consecutiveFailures
      ensures View() == Lifecycle.ScheduleRestart(old(View()), cause, uptime, now) && state.Stopped?
      ensures consecutiveFailures == if cause == Completed(0) then 0
                                     else if uptime >= params.restart.resetAfterMs as real then 1
                                     else old(consecutiveFailures) + 1
      ensures var policy := params.restart;
              var strategy := if cause == Completed(0) then policy.onSuccess else policy.onError;
              var allowed := policy.maxRestartAttempts.None? || consecutiveFailures <= policy.maxRestartAttempts.value;
              && state.last.Some? && state.last.value.cause == cause
              && (state.last.value.restartDeadline.Some? <==> allowed && !strategy.Never?)
    {
      var policy := params.restart;
      var success := cause == Completed(0);
      if success || uptime >= policy.resetAfterMs as real {
        consecutiveFailures := 0;
      }
      if !success {
        consecutiveFailures := consecutiveFailures + 1;
      }
      if policy.maxRestartAttempts.Some? && consecutiveFailures > policy.maxRestartAttempts.value {
        return;
      }
      var strategy := if success then policy.onSuccess else policy.onError;
      if strategy.IsNever() {
        return;
      }
      var delay := strategy.DelayFor(Max(consecutiveFailures, 1));
      state := Stopped(Some(LastExecutionInfo(cause, Some(now + delay as real))));
    }

    /** One splice from a pipe into the log. */
    method SpliceOnce(which: Stdio, pipe: Kernel.Pipe) returns (r: Spliced)
      requires LogValid()
      modifies `stdoutBytes, `stderrBytes, `origins, `fromStdout, `fromStderr, log, log.mmap.file
      ensures LogValid()
      ensures if r.View? then r.bytes != [] && r.bytes <= pipe.Yield() else pipe.Yield() == []
      ensures var moved := if r.View? then r.bytes else [];
              && log.history == old(log.history) + moved
              && fromStdout == old(fromStdout) + (if which == Stdout then moved else [])
              && fromStderr == old(fromStderr) + (if which == Stderr then moved else [])
    {
      ghost var before := log.history;
      r := log.SpliceFromAndView(pipe, SPLICE_MAX_XFER_SIZE);
      if r.View? {
        PickedGrows(before, origins, r.bytes, which, Stdout);
        PickedGrows(before, origins, r.bytes, which, Stderr);
        origins := origins + seq(|r.bytes|, _ => which);
        match which {
          case Stdout =>
            stdoutBytes := stdoutBytes + |r.bytes|;
            fromStdout := fromStdout + r.bytes;
          case Stderr =>
            stderrBytes := stderrBytes + |r.bytes|;
            fromStderr := fromStderr + r.bytes;
        }
      }
    }

    /** Splices a pipe into the log until nothing more can be moved: all that the pipe yields is
        appended, each byte counted for its stream. */
    method DrainPipe(which: Stdio, pipe: Kernel.Pipe)
      requires LogValid()
      modifies `stdoutBytes, `stderrBytes, `origins, `fromStdout, `fromStderr, log, log.mmap.file
      ensures LogValid()
      ensures Snap() == Drained(old(Snap()), if which == Stdout then pipe.Yield() else [],
                            if which == Stderr then pipe.Yield() else [])
    {
      hide LogValid, CircularBuffer.Valid, Picked;
      ghost var logged, out, err := log.history, fromStdout, fromStderr;
      var left := pipe;
      ghost var moved: seq<byte> := [];
      while true
        invariant LogValid()
        invariant moved + left.Yield() == pipe.Yield()
        invariant log.history == logged + moved
        invariant fromStdout == out + (if which == Stdout then moved else [])
        invariant fromStderr == err + (if which == Stderr then moved else [])
        decreases |left.avail|
      {
        var spliced := SpliceOnce(which, left);
        match spliced {
          case View(bytes) =>
            assert bytes == left.Yield()[..|bytes|];
            Associative(moved, bytes, left.After(|bytes|).Yield());
            Associative(logged, moved, bytes);
            Associative(if which == Stdout then out else err, moved, bytes);
            moved := moved + bytes;
            left := left.After(|bytes|);
          case _ =>
            return;
        }
      }
    }

    /** Drains both pipes, standard output first. */
    method DrainBoth(stdout: Kernel.Pipe, stderr: Kernel.Pipe)
      requires LogValid()
      modifies `stdoutBytes, `stderrBytes, `origins, `fromStdout, `fromStderr, log, log.mmap.file
      ensures LogValid()
      ensures Snap() == Drained(old(Snap()), stdout.Yield(), stderr.Yield())
    {
      hide LogValid, CircularBuffer.Valid, Picked;
      DrainPipe(Stdout, stdout);
      DrainPipe(Stderr, stderr);
    }

    /** Cleans up the runtime of an app that has just been marked stopped, and puts the exit to the
        restart policy. */
    method Retire(rt: AppRuntime, exit: ExitReport, slab: MioTokenSlab, tryRestart: bool)
      requires state == StoppedWithCause(exit.cause) && Lived() == View().(state := Running(rt))
      requires slab.Valid() && AppClaims(slab.owner, id, Some(rt.tokens))
      modifies `state, `consecutiveFailures, `cleaned, `trace, slab
      ensures View() == Lived() && state.Stopped?
      ensures slab.Valid() && AppClaims(slab.owner, id, None)
      ensures OthersKept(old(slab.owner), slab.owner, AppParty(id))
      ensures slab.Now().Take(3) == old(slab.Now())
      ensures Exited(old(Lived()), View(), exit, tryRestart)
      ensures ExitNoted(old(trace), trace, exit, tryRestart)
    {
      hide LogValid, AppClaims, OthersKept, Lived, MioTokenSlab.Valid, LeakedTokens, Lifecycle.ScheduleRestart;
      var uptime := Elapsed(rt.startedAt, exit.at);
      StopRuntime(id, rt, slab);
      cleaned := cleaned + 1;
      if tryRestart && !params.oneshot && !stopRequested {
        ScheduleRestart(exit.cause, uptime, exit.decidedAt);
      }
      Record(ExitEvent(exit.cause, uptime, exit.decidedAt, tryRestart));
    }

    /** The process has exited: whatever is still in the pipes is saved to the log, the runtime is
        cleaned up, and the restart policy has its say. */
    method HandleExit(exit: ExitReport, stdout: Kernel.Pipe, stderr: Kernel.Pipe, slab: MioTokenSlab,
        tryRestart: bool)
      requires Valid() && slab.Valid() && AppClaims(slab.owner, id, Held(state)) && state.Running?
      modifies this, log, log.mmap.file, slab
      ensures Valid() && slab.Valid() && AppClaims(slab.owner, id, Held(state))
      ensures OthersKept(old(slab.owner), slab.owner, AppParty(id))
      ensures slab.Now().Take(3) == old(slab.Now())
      ensures Exited(old(View()), View(), exit, tryRestart) && state.Stopped?
      ensures Snap() == Drained(old(Snap()), stdout.Yield(), stderr.Yield()).(view := View())
      ensures ExitNoted(old(trace), trace, exit, tryRestart)
    {
      hide LogValid, AppClaims, OthersKept, Lived, MioTokenSlab.Valid, LeakedTokens, CircularBuffer.Valid, Exited;
      var rt := state.rt;
      state := StoppedWithCause(exit.cause);
      DrainBoth(stdout, stderr);
      Retire(rt, exit, slab, tryRestart);
    }

    /** Handles an event. Only the app holding the token reacts; output is moved to the log until
        the pipe has nothing more to give, and an exit is handled once `waitpid` reports it. */
    method Poll(slab: MioTokenSlab, token: Token, event: AppEvent, tryRestart: bool)
      requires Valid() && slab.Valid() && AppClaims(slab.owner, id, Held(state))
      modifies this, log, log.mmap.file, slab
      ensures Valid() && slab.Valid() && AppClaims(slab.owner, id, Held(state))
      ensures OthersKept(old(slab.owner), slab.owner, AppParty(id))
      ensures slab.Now().lost == old(slab.Now().lost)
      ensures PollOutcome(old(Snap()), Snap(), token, event, tryRestart)
      ensures token !in TokenSet(Held(old(state))) ==> unchanged(this) && unchanged(log) && unchanged(slab)
      ensures trace != old(trace) <==>
                && Held(old(state)).Some? && token == Held(old(state)).value.pidfd
                && event.readable && event.waited.Some?
      ensures trace != old(trace) ==> ExitNoted(old(trace), trace, event.waited.value, tryRestart)
    {
      hide LogValid, Lived, MioTokenSlab.Valid, LeakedTokens, OthersKept, Exited, Drained;
      OthersKeptSelf(slab.owner, AppParty(id));
      if state.Stopped? {
        return;
      }
      var k := state.rt.tokens;
      if token == k.stdout {
        if event.readable {
          DrainPipe(Stdout, event.stdout);
        }
      } else if token == k.stderr {
        if event.readable {
          DrainPipe(Stderr, event.stderr);
        }
      }
      if token == k.pidfd && event.readable && event.waited.Some? {
        HandleExit(event.waited.value, event.stdout, event.stderr, slab, tryRestart);
      }
    }

    /** Creates an app, autostarting it if asked to. It fails exactly if its first launch is asked for
        and does not go through. */
    static method Create(id: nat, params: AppParams, host: Kernel.Host, slab: MioTokenSlab) returns (r: Option<App>)
      requires params.logBufferSize > 0
      requires slab.Valid() && AppClaims(slab.owner, id, None)
      modifies slab
      ensures slab.Valid() && OthersKept(old(slab.owner), slab.owner, AppParty(id))
      ensures r.Some? <==> (params.autostart ==> Completes(host.launches(0), old(slab.Now())))
      ensures r.Some? ==>
                var app := r.value;
                && app.Valid() && app.id == id && app.trace == [] && app.log.history == []
                && app.AsConfigured(params, host) && (app.state.Running? <==> params.autostart)
                && AppClaims(slab.owner, id, Held(app.state))
                && slab.Now() == old(slab.Now()).Take(if params.autostart then 3 else 0)
                && fresh(app) && fresh(app.log) && fresh(app.log.mmap.file)
    {
      hide AppClaims, OthersKept, MioTokenSlab.Valid, LeakedTokens;
      OthersKeptSelf(slab.owner, AppParty(id));
      var launched := None;
      if params.autostart {
        launched := LaunchRuntime(id, host.launches(0), slab);
        if launched.None? {
          return None;
        }
      }
      var ring := new CircularBuffer(params.logBufferSize);
      var app := new App(id, params, host, launched, ring);
      return Some(app);
    }
  }

  /** The apps' names; a request is for the first app with the name it gives. */
  function AppNames(apps: seq<App>): (names: seq<seq<byte>>)
    ensures |names| == |apps|
  {
    seq(|apps|, i requires 0 <= i < |apps| => apps[i].params.name)
  }
}
