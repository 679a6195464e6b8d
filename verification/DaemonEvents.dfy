/** What single events come to, written out in states, bytes and numbers: interrupts, connections taken in,
    output, and exits and the restart policy. */
module DaemonEvents {
  import opened Basics
  import opened Restart
  import opened Lifecycle
  import opened TokenSlab
  import opened Apps
  import opened LogIpc
  import opened DaemonSteps
  import opened DaemonRuns
  import opened DaemonService
  import Kernel

  // Interrupts

  /** Signal 2 on token 1 is an interrupt and changes nothing else; no other event is one. */
  lemma InterruptIsCounted(setup: Setup, w: World, ev: IoEvent, after: World)
    requires |w.apps| == |setup.names| == |setup.rings| && EventStep(setup, w, ev, after)
    ensures after.sigints == w.sigints + if ev.token == 1 && ev.signal == 2 then 1 else 0
    ensures ev.token == 1 ==> after == w.(sigints := after.sigints)
  {
    hide ControlStep, LogStep, AppStep, ControlAccepted, LogsAccepted;
    EventCountsInterrupt(setup, w, ev, after);
  }

  /** Token 0 brings control connections and token 2 log connections; neither touches anything else. */
  lemma ListenersTakeIn(setup: Setup, w: World, ev: IoEvent, after: World)
    requires |w.apps| == |setup.names| == |setup.rings| && EventStep(setup, w, ev, after)
    ensures ev.token == 0 ==> after == w.(control := after.control, sessions := after.sessions, pool := after.pool)
    ensures ev.token == 2 ==> after == w.(logs := after.logs, feeds := after.feeds, pool := after.pool)
  {
    hide ControlStep, LogStep, AppStep, Admission;
  }

  // Connections

  lemma AdmissionInNumbers(pending: seq<bool>, maxConnections: nat, room: Room, n: nat, k: nat)
    requires n <= |pending| && room.connected + n <= Max(room.connected, maxConnections)
    requires room.pool.out + n <= Max(room.pool.out, room.pool.capacity)
    requires n == |pending| || room.connected + n >= maxConnections || room.pool.out + n >= room.pool.capacity
    requires k <= n && (forall j :: 0 <= j < k ==> pending[j]) && (k < n ==> !pending[k])
    ensures var after := Admission(pending, maxConnections, room);
            && after.connected == room.connected + k
            && after.pool.out == room.pool.out + k + (if k < n then 1 else 0)
  {
    if k < n {
      IndexIs(pending[..n], false, k);
    } else {
      assert false !in pending[..n];
    }
  }

  /** Of the connections pending at a listener, `n` fit: as many as there are, up to the bound on connections
      and the number of tokens. They are taken in up to the first that cannot be registered, number `k`; that
      one only costs a token. Whoever was connected before still is. */
  lemma ConnectionsAreTakenIn(setup: Setup, w: World, ev: IoEvent, after: World, n: nat, k: nat)
    requires |w.apps| == |setup.names| == |setup.rings| && EventStep(setup, w, ev, after)
    requires ev.token in {0, 2}
    requires var connected, bound := if ev.token == 0 then |w.control| else |w.logs|,
               if ev.token == 0 then setup.maxControl else setup.maxLogs;
             && n <= |ev.pending| && connected + n <= Max(connected, bound)
             && w.pool.out + n <= Max(w.pool.out, w.pool.capacity)
             && (n == |ev.pending| || connected + n >= bound || w.pool.out + n >= w.pool.capacity)
    requires k <= n && (forall j :: 0 <= j < k ==> ev.pending[j]) && (k < n ==> !ev.pending[k])
    ensures if ev.token == 0 then |after.control| == |w.control| + k else |after.logs| == |w.logs| + k
    ensures after.pool.out == w.pool.out + k + if k < n then 1 else 0
    ensures forall t :: t in w.control ==> t in after.control && after.control[t] == w.control[t]
    ensures forall t :: t in w.logs ==> t in after.logs && after.logs[t] == w.logs[t]
    ensures forall t :: t in after.control && t !in w.control ==>
              && after.control[t] in after.sessions
              && var s := after.sessions[after.control[t]];
                 s.buf == s.sent == s.queued == [] && s.responses == [] && !s.closing && !s.broken
    ensures forall t :: t in after.logs && t !in w.logs ==>
              && after.logs[t] in after.feeds
              && var f := after.feeds[after.logs[t]];
                 f.received == f.reader.delivered == [] && f.state.AwaitingRequest? && !f.closing && !f.broken
  {
    hide ControlStep, LogStep, AppStep, Admission;
    if ev.token == 0 {
      AdmissionInNumbers(ev.pending, setup.maxControl, Room(|w.control|, w.pool), n, k);
    } else {
      AdmissionInNumbers(ev.pending, setup.maxLogs, Room(|w.logs|, w.pool), n, k);
    }
  }

  // Exits

  /** An exit while the daemon is stopping, of a oneshot app, or of an app that was asked to stop since it
      was last started, is final: the app is down, and its failures are not counted. */
  lemma ExitWithoutRestart(setup: Setup, w: World, ev: IoEvent, after: World, i: nat, exit: ExitReport)
    requires SoundWorld(setup, w) && EventStep(setup, w, ev, after) && i < |w.apps|
    requires w.apps[i].view.state.Running? && ev.token == w.apps[i].view.state.rt.tokens.pidfd
    requires ev.readable && ev.waited == Some(exit)
    requires w.sigints > 0 || w.apps[i].view.params.oneshot || w.apps[i].view.stopRequested
    ensures i < |after.apps|
    ensures var a := w.apps[i].view;
            after.apps[i].view
            == a.(state := State.Stopped(Some(LastExecutionInfo(exit.cause, None))), cleaned := a.cleaned + 1)
  {
    hide SoundWorld, EventStep, RestartDelay.DelayFor;
    ExitReaches(setup, w, ev, after, i);
  }

  /** An exit with code 0 that is none of these clears the count of failures, and unless the success
      strategy is never to restart, a restart is due after its first delay. */
  lemma SuccessIsJudged(setup: Setup, w: World, ev: IoEvent, after: World, i: nat, exit: ExitReport)
    requires SoundWorld(setup, w) && EventStep(setup, w, ev, after) && i < |w.apps|
    requires w.apps[i].view.state.Running? && ev.token == w.apps[i].view.state.rt.tokens.pidfd
    requires ev.readable && ev.waited == Some(exit)
    requires w.sigints == 0 && !w.apps[i].view.params.oneshot && !w.apps[i].view.stopRequested
    requires exit.cause == Completed(0)
    ensures i < |after.apps|
    ensures var a := w.apps[i].view;
            var deadline := match a.params.restart.onSuccess
              case Never => None
              case Constant(delay) => Some(exit.decidedAt + delay as real)
              case ExponentialBackoff(initial, max, _) =>
                Some(exit.decidedAt + (if initial <= max then initial else max) as real);
            after.apps[i].view
            == a.(state := State.Stopped(Some(LastExecutionInfo(Completed(0), deadline))),
                  consecutiveFailures := 0, cleaned := a.cleaned + 1)
  {
    hide SoundWorld, EventStep;
    ExitReaches(setup, w, ev, after, i);
  }

  /** Any other exit counts one failure more, or the first if the run was long enough. A restart becomes
      due unless the error strategy is never to restart or the count is past its bound. It is due after the
      constant delay, or after the backoff `delays[n - 1]`, the initial delay multiplied once for each
      failure but the first, capped and in whole milliseconds. */
  lemma FailureIsJudged(setup: Setup, w: World, ev: IoEvent, after: World, i: nat, exit: ExitReport, n: nat,
      delays: seq<real>)
    requires SoundWorld(setup, w) && EventStep(setup, w, ev, after) && i < |w.apps|
    requires w.apps[i].view.state.Running? && ev.token == w.apps[i].view.state.rt.tokens.pidfd
    requires ev.readable && ev.waited == Some(exit)
    requires w.sigints == 0 && !w.apps[i].view.params.oneshot && !w.apps[i].view.stopRequested
    requires exit.cause != Completed(0)
    requires var a, p := w.apps[i].view, w.apps[i].view.params.restart;
             && n == (if p.resetAfterMs == 0 || exit.at - a.state.rt.startedAt >= p.resetAfterMs as real then 1
                      else a.consecutiveFailures + 1)
             && |delays| == n
             && (p.onError.ExponentialBackoff? ==>
                   && delays[0] == p.onError.initialDelayMs as real
                   && forall k :: 0 <= k < n - 1 ==> delays[k + 1] == delays[k] * p.onError.multiplier)
    ensures i < |after.apps|
    ensures var a, b, p := w.apps[i].view, after.apps[i].view, w.apps[i].view.params.restart;
            && b == a.(state := b.state, consecutiveFailures := n, cleaned := a.cleaned + 1)
            && b.state.Stopped? && b.state.last.Some? && b.state.last.value.cause == exit.cause
            && var deadline := b.state.last.value.restartDeadline;
               && (deadline.Some? <==>
                     !p.onError.Never? && (p.maxRestartAttempts.None? || n <= p.maxRestartAttempts.value))
               && (deadline.Some? && p.onError.Constant? ==>
                     deadline.value == exit.decidedAt + p.onError.delayMs as real)
               && (deadline.Some? && p.onError.ExponentialBackoff? ==>
                     var d := (deadline.value - exit.decidedAt).Floor;
                     && deadline.value == exit.decidedAt + d as real && 0 <= d <= p.onError.maxDelayMs
                     && (d as real <= delays[n - 1] || d == 0)
                     && (delays[n - 1] < (d + 1) as real || d == p.onError.maxDelayMs))
  {
    hide SoundWorld, EventStep, RestartDelay.DelayFor;
    ExitReaches(setup, w, ev, after, i);
    var p := w.apps[i].view.params.restart;
    if p.onError.ExponentialBackoff? {
      BackoffInNumbers(p.onError, n, delays);
    } else {
      ConstantInNumbers(p.onError, n);
    }
  }

  // Transfers

  /** How many of `n` bytes a socket takes: all of them, or as many as there is room for. */
  function Takable(n: nat, outlet: Kernel.Outlet): (k: nat)
    ensures outlet.room.None? ==> k == n
    ensures outlet.room.Some? && outlet.room.value <= n ==> k == outlet.room.value
    ensures outlet.room.Some? && outlet.room.value > n ==> k == n
  {
    outlet.Takes(n)
  }

  // Output

  /** How many bytes can be moved out of a pipe: all there are, or as many as can before that fails. */
  function Movable(pipe: Kernel.Pipe): (n: nat)
    ensures n <= |pipe.avail|
    ensures pipe.breaksAfter.None? ==> n == |pipe.avail|
    ensures pipe.breaksAfter.Some? && pipe.breaksAfter.value <= |pipe.avail| ==> n == pipe.breaksAfter.value
    ensures pipe.breaksAfter.Some? && pipe.breaksAfter.value > |pipe.avail| ==> n == |pipe.avail|
  {
    |pipe.Yield()|
  }

  lemma MovableIsYield(pipe: Kernel.Pipe)
    ensures pipe.Yield() == pipe.avail[..Movable(pipe)]
  {
  }

  /** An event on a token of a running app is offered to that app, and changes no other. */
  lemma HolderReacts(setup: Setup, w: World, ev: IoEvent, after: World, i: nat)
    requires SoundWorld(setup, w) && EventStep(setup, w, ev, after) && i < |w.apps|
    requires ev.token in TokenSet(Held(w.apps[i].view.state))
    ensures |after.apps| == |w.apps| && forall j :: 0 <= j < |w.apps| && j != i ==> after.apps[j] == w.apps[j]
    ensures PollOutcome(w.apps[i], after.apps[i], ev.token, ForApp(ev), w.sigints == 0)
  {
    hide ControlStep, LogStep, ControlAccepted, LogsAccepted, SoundSnapshot, Drained, SessionsInOrder, InOrder;
    assert AppApart(w, i);
  }

  lemma ReactionToOutput(before: AppSnapshot, after: AppSnapshot, ev: IoEvent, tryRestart: bool)
    requires PollOutcome(before, after, ev.token, ForApp(ev), tryRestart) && before.view.state.Running?
    requires ev.token != before.view.state.rt.tokens.pidfd
    requires ev.token in {before.view.state.rt.tokens.stdout, before.view.state.rt.tokens.stderr}
    ensures if !ev.readable then after == before
            else if ev.token == before.view.state.rt.tokens.stdout then
              var moved := ev.stdout.avail[..Movable(ev.stdout)];
              after == before.(log := before.log + moved, stdout := before.stdout + moved)
            else
              var moved := ev.stderr.avail[..Movable(ev.stderr)];
              after == before.(log := before.log + moved, stderr := before.stderr + moved)
  {
    hide Movable, Kernel.Pipe.Yield;
    MovableIsYield(ev.stdout);
    MovableIsYield(ev.stderr);
    assert before.log + ev.stdout.Yield() + [] == before.log + ev.stdout.Yield();
    assert before.log + [] + ev.stderr.Yield() == before.log + ev.stderr.Yield();
    assert before.stdout + [] == before.stdout && before.stderr + [] == before.stderr;
  }

  /** Output of a running app that is reported on its first or second stream goes to the end of its log,
      and is counted for that stream; the other apps are not touched. */
  lemma OutputReaches(setup: Setup, w: World, ev: IoEvent, after: World, i: nat)
    requires SoundWorld(setup, w) && EventStep(setup, w, ev, after) && i < |w.apps|
    requires w.apps[i].view.state.Running? && ev.token != w.apps[i].view.state.rt.tokens.pidfd
    requires ev.token in {w.apps[i].view.state.rt.tokens.stdout, w.apps[i].view.state.rt.tokens.stderr}
    ensures |after.apps| == |w.apps| && forall j :: 0 <= j < |w.apps| && j != i ==> after.apps[j] == w.apps[j]
    ensures var a, b, k := w.apps[i], after.apps[i], w.apps[i].view.state.rt.tokens;
            if !ev.readable then b == a
            else if ev.token == k.stdout then
              var moved := ev.stdout.avail[..Movable(ev.stdout)];
              b == a.(log := a.log + moved, stdout := a.stdout + moved)
            else
              var moved := ev.stderr.avail[..Movable(ev.stderr)];
              b == a.(log := a.log + moved, stderr := a.stderr + moved)
  {
    hide EventStep, SoundWorld, PollOutcome, Movable;
    HolderReacts(setup, w, ev, after, i);
    ReactionToOutput(w.apps[i], after.apps[i], ev, w.sigints == 0);
  }

  /** The exit of an app takes all that can be moved out of its pipes to the end of its log, what comes from
      the first stream before what comes from the second; no other app is touched, and no process is
      launched or signalled. */
  lemma ExitSavesOutput(setup: Setup, w: World, ev: IoEvent, after: World, i: nat)
    requires SoundWorld(setup, w) && EventStep(setup, w, ev, after) && i < |w.apps|
    requires w.apps[i].view.state.Running? && ev.token == w.apps[i].view.state.rt.tokens.pidfd
    requires ev.readable && ev.waited.Some?
    ensures |after.apps| == |w.apps| && forall j :: 0 <= j < |w.apps| && j != i ==> after.apps[j] == w.apps[j]
    ensures var a, b := w.apps[i], after.apps[i];
            var out, err := ev.stdout.avail[..Movable(ev.stdout)], ev.stderr.avail[..Movable(ev.stderr)];
            b == a.(view := b.view, log := a.log + out + err, stdout := a.stdout + out, stderr := a.stderr + err)
  {
    hide EventStep, SoundWorld, Exited, Movable, Kernel.Pipe.Yield;
    HolderReacts(setup, w, ev, after, i);
    MovableIsYield(ev.stdout);
    MovableIsYield(ev.stderr);
  }

  /** An event on a token that no app and no connection holds, or an app's pidfd without an exit to report,
      changes no app. */
  lemma NothingToReactTo(setup: Setup, w: World, ev: IoEvent, after: World)
    requires SoundWorld(setup, w) && EventStep(setup, w, ev, after)
    requires ev.token !in w.control && forall i :: 0 <= i < |w.apps| && w.apps[i].view.state.Running? ==>
                 var k := w.apps[i].view.state.rt.tokens;
                 && ev.token != k.stdout && ev.token != k.stderr
                 && (ev.token == k.pidfd ==> !ev.readable || ev.waited.None?)
    ensures after.apps == w.apps
  {
    hide LogStep, ControlAccepted, LogsAccepted, SoundSnapshot, TokensApart, SessionsInOrder, InOrder, Exited, Drained,
      FeedAfter;
    if ev.token == SIGNALFD_TOKEN {
    } else if ev.token == UNIX_LISTENER_TOKEN {
      ControlAcceptedKeeps(setup, w, ev.pending, after);
    } else if ev.token == LOG_LISTENER_TOKEN {
      LogsAcceptedKeeps(setup, w, ev.pending, after);
    } else if ev.token in w.logs {
      LogStepKeeps(setup, w, ev, after);
    } else {
      forall i | 0 <= i < |w.apps| ensures after.apps[i] == w.apps[i] {
        assert PollOutcome(w.apps[i], after.apps[i], ev.token, ForApp(ev), w.sigints == 0);
      }
    }
  }

  // Tokens

  /** Where in a list the running apps are. */
  ghost function RunningIn(apps: seq<AppSnapshot>): set<nat> {
    set i | 0 <= i < |apps| && apps[i].view.state.Running?
  }

  lemma RunningMore(apps: seq<AppSnapshot>, app: AppSnapshot)
    ensures RunningIn(apps + [app])
            == if app.view.state.Running? then RunningIn(apps) + {|apps|} else RunningIn(apps)
    ensures |apps| !in RunningIn(apps)
    ensures HeldsIn(apps + [app]) == HeldsIn(apps) + [Held(app.view.state)]
  {
  }

  lemma NobodyRuns()
    ensures RunningIn([]) == {}
  {
  }

  lemma {:induction false} RunningAreCounted(apps: seq<AppSnapshot>)
    ensures RunningCount(HeldsIn(apps)) == |RunningIn(apps)|
  {
    hide HeldsIn, RunningIn;
    if apps == [] {
      NobodyRuns();
    } else {
      var init, last := apps[..|apps| - 1], apps[|apps| - 1];
      assert apps == init + [last];
      RunningAreCounted(init);
      RunningMore(init, last);
      assert (HeldsIn(init) + [Held(last.view.state)])[..|init|] == HeldsIn(init);
    }
  }

  /** At any moment between events the tokens out are three per running app, one per connection, and the
      leaked ones. */
  lemma TokensInNumbers(setup: Setup, w: World)
    requires SoundWorld(setup, w)
    ensures w.pool.out == 3 * |set i | 0 <= i < |w.apps| && w.apps[i].view.state.Running?|
                          + |w.control| + |w.logs| + w.pool.lost.leaked
  {
    hide SoundSnapshot, SessionsInOrder, InOrder, TokensApart, HeldsIn;
    RunningAreCounted(w.apps);
  }

  /** Nobody shares a token: none of a connection or a running app is 0, 1 or 2, or another's. */
  lemma TokensAreNotShared(setup: Setup, w: World, t: Token, i: nat, j: nat)
    requires SoundWorld(setup, w) && i < |w.apps| && j < |w.apps| && i != j
    ensures t in w.control ==> t > 2 && t !in w.logs
    ensures t in w.logs ==> t > 2
    ensures w.apps[i].view.state.Running? ==>
              var k := w.apps[i].view.state.rt.tokens;
              t in {k.pidfd, k.stdout, k.stderr} ==>
                && t > 2 && t !in w.control && t !in w.logs
                && (w.apps[j].view.state.Running? ==>
                      var l := w.apps[j].view.state.rt.tokens; t !in {l.pidfd, l.stdout, l.stderr})
  {
    hide SoundSnapshot, SessionsInOrder, InOrder, HeldsIn;
    assert AppApart(w, i);
    if t in w.control {
      ControlIsNotReserved(w, t);
      assert t in w.control.Keys;
    }
    if t in w.logs {
      LogIsNotReserved(w, t);
    }
  }
}
