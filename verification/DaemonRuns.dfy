/** Properties of whole runs of the daemon's main loop. */
module DaemonRuns {
  import opened Basics
  import opened Lifecycle
  import opened LifecycleRuns
  import opened TokenSlab
  import opened Apps
  import opened Fleet
  import opened LogReader
  import opened LogIpc
  import opened ControlIpc
  import opened ControlServer
  import opened Framing
  import opened DaemonSteps
  import Kernel

  // What one step keeps

  lemma ReactionsAreNoRestarts(before: seq<AppSnapshot>, after: seq<AppSnapshot>, token: Token, event: AppEvent,
      tryRestart: bool)
    requires AllReacted(before, after, token, event, tryRestart)
    ensures AllNoRestart(before, after)
  {
    hide PollOutcome, NoRestart;
    forall i | 0 <= i < |before| ensures NoRestart(before[i].view, after[i].view) {
      ReactionIsNoRestart(before[i], after[i], token, event, tryRestart);
    }
  }

  /** The requests an event for a control connection has carried out, and the pool before the connection has
      returned its token, if it is dropped. */
  lemma ControlCarriesOut(setup: Setup, w: World, ev: IoEvent, after: World)
    returns (done: seq<seq<byte>>, answers: seq<Response>, pool: Pool)
    requires ev.token in w.control && ControlStep(setup, w, ev, after)
    ensures w.control[ev.token] in w.sessions && w.control[ev.token] in after.sessions
    ensures var t := after.sessions[w.control[ev.token]];
            ev.token !in after.control <==> t.broken || (t.closing && t.queued == [])
    ensures pool == after.pool.(out := after.pool.out + if ev.token in after.control then 0 else 1)
    ensures |done| == |answers|
    ensures CarriedOut(setup.codec, setup.names, done, answers, EstateIn(w), Estate(after.apps, pool))
    ensures var c := w.control[ev.token];
            SessionStep(setup.codec, w.sessions[c], after.sessions[c], ev, done, answers)
  {
    hide CarriedOut, SessionStep;
    var c := w.control[ev.token];
    pool := Undropped(after.pool, after.sessions[c].Dropped());
    done, answers :|
      && |done| == |answers|
      && CarriedOut(setup.codec, setup.names, done, answers, EstateIn(w), Estate(after.apps, pool))
      && SessionStep(setup.codec, w.sessions[c], after.sessions[c], ev, done, answers);
  }

  lemma ControlIsNoRestart(setup: Setup, w: World, ev: IoEvent, after: World)
    requires ev.token in w.control && ControlStep(setup, w, ev, after)
    ensures AllNoRestart(w.apps, after.apps) && SameOutput(w.apps, after.apps)
    ensures PaidFor(w.pool.lost, after.pool.lost)
  {
    hide SessionStep, AllNoRestart, SameOutput;
    var done, answers, pool := ControlCarriesOut(setup, w, ev, after);
    CarriedOutIsNoRestart(setup.codec, setup.names, done, answers, EstateIn(w), Estate(after.apps, pool));
  }

  lemma ControlAcceptedKeeps(setup: Setup, w: World, pending: seq<bool>, after: World)
    requires ControlAccepted(setup, w, pending, after)
    ensures after.apps == w.apps && after.logs == w.logs && after.feeds == w.feeds && after.sigints == w.sigints
    ensures Kept(w.sessions, after.sessions)
    ensures PaidFor(w.pool.lost, after.pool.lost)
  {
    hide Admission;
    AdmissionIsPaidFor(pending, setup.maxControl, Room(|w.control|, w.pool));
  }

  lemma LogsAcceptedKeeps(setup: Setup, w: World, pending: seq<bool>, after: World)
    requires LogsAccepted(setup, w, pending, after)
    ensures after.apps == w.apps && after.control == w.control && after.sessions == w.sessions
    ensures after.sigints == w.sigints
    ensures Kept(w.feeds, after.feeds)
    ensures PaidFor(w.pool.lost, after.pool.lost)
  {
    hide Admission;
    AdmissionIsPaidFor(pending, setup.maxLogs, Room(|w.logs|, w.pool));
  }

  lemma LogStepKeeps(setup: Setup, w: World, ev: IoEvent, after: World)
    requires ev.token in w.logs && |w.apps| == |setup.names| == |setup.rings| && LogStep(setup, w, ev, after)
    ensures after.apps == w.apps && after.control == w.control && after.sessions == w.sessions
    ensures after.sigints == w.sigints
    ensures after.pool.lost == w.pool.lost
  {
    hide FeedAfter, Feed.Dropped;
  }

  /** No event restarts an app automatically. */
  lemma EventIsNoRestart(setup: Setup, w: World, ev: IoEvent, after: World)
    requires |w.apps| == |setup.names| == |setup.rings| && EventStep(setup, w, ev, after)
    ensures AllNoRestart(w.apps, after.apps)
  {
    hide ControlStep, AllReacted, NoRestart, LogStep, ControlAccepted, LogsAccepted;
    AllNoRestartSelf(w.apps);
    if ev.token == SIGNALFD_TOKEN {
    } else if ev.token == UNIX_LISTENER_TOKEN {
      ControlAcceptedKeeps(setup, w, ev.pending, after);
    } else if ev.token == LOG_LISTENER_TOKEN {
      LogsAcceptedKeeps(setup, w, ev.pending, after);
    } else if ev.token in w.control {
      ControlIsNoRestart(setup, w, ev, after);
    } else if ev.token in w.logs {
      LogStepKeeps(setup, w, ev, after);
    } else {
      ReactionsAreNoRestarts(w.apps, after.apps, ev.token, ForApp(ev), w.sigints == 0);
    }
  }

  lemma SameApps(setup: Setup, worlds: seq<World>, events: seq<IoEvent>, k: nat)
    requires Handled(setup, worlds, events) && k < |worlds|
    ensures |worlds[k].apps| == |worlds[0].apps| == |setup.names| == |setup.rings|
  {
    hide EventStep, SoundSnapshot, TokensApart, SessionsInOrder, InOrder;
    assert SoundWorld(setup, worlds[k]) && SoundWorld(setup, worlds[0]);
  }

  /** Between any two moments of a batch no app is restarted automatically. */
  lemma {:induction false} EventsAreNoRestarts(setup: Setup, worlds: seq<World>, events: seq<IoEvent>, j: nat, k: nat)
    requires Handled(setup, worlds, events) && j <= k < |worlds|
    ensures AllNoRestart(worlds[j].apps, worlds[k].apps)
    decreases k
  {
    hide EventStep, AllNoRestart, SoundWorld;
    if j == k {
      AllNoRestartSelf(worlds[j].apps);
    } else {
      EventsAreNoRestarts(setup, worlds, events, j, k - 1);
      SameApps(setup, worlds, events, k - 1);
      EventIsNoRestart(setup, worlds[k - 1], events[k - 1], worlds[k]);
      AllNoRestartTransitive(worlds[j].apps, worlds[k - 1].apps, worlds[k].apps);
    }
  }

  // Interrupts

  /** How many interrupt signals some events bring. */
  function Sigints(events: seq<IoEvent>): nat {
    if events == [] then 0
    else
      var last := events[|events| - 1];
      Sigints(events[..|events| - 1]) + (if last.token == SIGNALFD_TOKEN && last.signal == SIGINT then 1 else 0)
  }

  function SigintsIn(wakes: seq<Wake>): nat {
    if wakes == [] then 0 else SigintsIn(wakes[..|wakes| - 1]) + Sigints(wakes[|wakes| - 1].events)
  }

  lemma EventCountsInterrupt(setup: Setup, w: World, ev: IoEvent, after: World)
    requires |w.apps| == |setup.names| == |setup.rings| && EventStep(setup, w, ev, after)
    ensures after.sigints == w.sigints + if ev.token == SIGNALFD_TOKEN && ev.signal == SIGINT then 1 else 0
  {
    hide CarriedOut, SessionStep, FeedAfter, AllReacted, Admission;
  }

  lemma {:induction false} EventsCountInterrupts(setup: Setup, worlds: seq<World>, events: seq<IoEvent>, k: nat)
    requires Handled(setup, worlds, events) && k < |worlds|
    ensures worlds[k].sigints == worlds[0].sigints + Sigints(events[..k])
  {
    hide EventStep, SoundWorld;
    if k > 0 {
      EventsCountInterrupts(setup, worlds, events, k - 1);
      SameApps(setup, worlds, events, k - 1);
      EventCountsInterrupt(setup, worlds[k - 1], events[k - 1], worlds[k]);
      assert events[..k][..k - 1] == events[..k - 1];
    }
  }

  // Whole turns

  /** No restart is pending, and whatever still runs has been asked to stop. */
  ghost predicate AllDown(apps: seq<AppSnapshot>) {
    forall i :: 0 <= i < |apps| ==>
      PendingDeadline(apps[i].view.state).None? && (apps[i].view.state.Running? ==> apps[i].view.stopRequested)
  }

  /** Every pending restart lies in the future. */
  ghost predicate DeadlinesAfter(apps: seq<AppSnapshot>, now: Instant) {
    forall i :: 0 <= i < |apps| && PendingDeadline(apps[i].view.state).Some? ==>
      now < PendingDeadline(apps[i].view.state).value
  }

  /** Nothing runs and no restart is pending. */
  predicate NobodyUp(apps: seq<AppSnapshot>) {
    forall i :: 0 <= i < |apps| ==> !apps[i].view.state.Running? && PendingDeadline(apps[i].view.state).None?
  }

  predicate MayLeave(keepRunning: bool, w: World) {
    (!keepRunning || w.sigints > 0) && NobodyUp(w.apps)
  }

  /** A restart phase that may not restart cancels every pending restart. */
  lemma PhaseCancels(before: Estate, after: Estate, now: Instant)
    requires AllPhased(before, after, now, false)
    ensures AllNoRestart(before.apps, after.apps)
    ensures forall i :: 0 <= i < |after.apps| ==> PendingDeadline(after.apps[i].view.state).None?
  {
  }

  /** A restart phase that may restart leaves only deadlines in the future. */
  lemma PhaseWaits(before: Estate, after: Estate, now: Instant)
    requires AllPhased(before, after, now, true)
    ensures DeadlinesAfter(after.apps, now)
  {
    hide AfterPhases;
  }

  lemma StoppingAll(before: seq<AppSnapshot>, after: seq<AppSnapshot>, force: bool)
    requires StopAsked(before, after, force)
    requires forall i :: 0 <= i < |before| ==> PendingDeadline(before[i].view.state).None?
    ensures AllNoRestart(before, after) && AllDown(after)
  {
  }

  lemma TurnSigints(setup: Setup, before: World, wake: Wake, course: Course, after: World)
    requires Turn(setup, before, wake, course, after)
    ensures after.sigints == before.sigints + Sigints(wake.events)
    ensures course.pushed.sigints == course.phased.sigints == after.sigints
    ensures course.pushed.apps == course.worlds[|wake.events|].apps
  {
    hide SoundWorld, Pushed, AllPhased, StopAsked, EventStep;
    EventsCountInterrupts(setup, course.worlds, wake.events, |wake.events|);
    assert wake.events[..|wake.events|] == wake.events;
  }

  /** What the restart phase does to one app, with the tokens those before it have left. */
  lemma PhaseAt(w: World, after: World, now: Instant, i: nat) returns (pool: Pool)
    requires PhaseStep(w, after, now) && i < |w.apps|
    ensures |after.apps| == |w.apps| && PhaseOutcome(w.apps[i], after.apps[i], now, w.sigints == 0, pool)
  {
    hide PhaseOutcome, AfterPhases;
    pool := AfterPhases(w.apps[..i], now, w.sigints == 0, w.pool);
  }

  /** In an iteration that ends interrupted no app is restarted automatically, not even one whose
      restart was scheduled by an earlier event of the same batch; at its end no restart is pending
      and everything still running has been asked to stop. */
  lemma InterruptedTurn(setup: Setup, before: World, wake: Wake, course: Course, after: World)
    requires Turn(setup, before, wake, course, after) && after.sigints > 0
    ensures AllNoRestart(before.apps, after.apps) && AllDown(after.apps)
  {
    hide SoundWorld, Pushed, AllPhased, StopAsked, EventStep, AllNoRestart, AllDown;
    TurnSigints(setup, before, wake, course, after);
    var n := |wake.events|;
    EventsAreNoRestarts(setup, course.worlds, wake.events, 0, n);
    PhaseCancels(EstateIn(course.pushed), EstateIn(course.phased), wake.now);
    StoppingAll(course.phased.apps, after.apps, course.phased.sigints >= SIGINT_THRESHOLD);
    AllNoRestartTransitive(before.apps, course.pushed.apps, course.phased.apps);
    AllNoRestartTransitive(before.apps, course.phased.apps, after.apps);
  }

  /** In an iteration that ends uninterrupted every automatic restart was due at its clock, and every
      restart still pending at its end lies in the future. */
  lemma UninterruptedTurn(setup: Setup, before: World, wake: Wake, course: Course, after: World, i: nat)
    requires Turn(setup, before, wake, course, after) && after.sigints == 0 && i < |before.apps|
    ensures |after.apps| == |before.apps| && DeadlinesAfter(after.apps, wake.now)
    ensures var polled := course.worlds[|wake.events|].apps;
            i < |polled|
            && (after.apps[i].view.restartCount != before.apps[i].view.restartCount ==>
                  && after.apps[i].view.restartCount == before.apps[i].view.restartCount + 1
                  && PendingDeadline(polled[i].view.state).Some?
                  && PendingDeadline(polled[i].view.state).value <= wake.now)
  {
    hide SoundWorld, Pushed, StopAsked, EventStep, DeadlinesAfter;
    TurnSigints(setup, before, wake, course, after);
    EventsAreNoRestarts(setup, course.worlds, wake.events, 0, |wake.events|);
    PhaseWaits(EstateIn(course.pushed), EstateIn(course.phased), wake.now);
    assert NoRestart(before.apps[i].view, course.pushed.apps[i].view);
    var pool := PhaseAt(course.pushed, course.phased, wake.now, i);
  }

  // Requests to start and to stop

  /** The requests that have become complete with an event for a control connection. */
  function NewRequests(w: World, ev: IoEvent): seq<seq<byte>> {
    if ev.readable && ev.token in w.control && w.control[ev.token] in w.sessions then
      RequestsIn(w.sessions[w.control[ev.token]].Read(ev.arrivals, ev.end).buf)
    else []
  }

  /** An event brings a request to start the app at position `i`, or to start all. */
  predicate StartAsked(setup: Setup, w: World, ev: IoEvent, i: nat) {
    exists k :: 0 <= k < |NewRequests(w, ev)| && AsksToStart(setup.names, setup.codec.decode(NewRequests(w, ev)[k]), i)
  }

  /** What an event carries out begins what it has brought. */
  lemma OnlyNewRequests(setup: Setup, w: World, ev: IoEvent, after: Session, done: seq<seq<byte>>,
      answers: seq<Response>)
    requires ev.token in w.control && w.control[ev.token] in w.sessions
    requires SessionStep(setup.codec, w.sessions[w.control[ev.token]], after, ev, done, answers)
    ensures done <= NewRequests(w, ev)
  {
    hide RequestsIn, Leftover, Flatten, Answered, Session.Finish, Session.Handle;
  }

  lemma {:induction false} NoStartCarriedOut(codec: Codec, names: seq<Name>, lines: seq<seq<byte>>,
      responses: seq<Response>, before: Estate, after: Estate, i: nat)
    requires |lines| == |responses| && CarriedOut(codec, names, lines, responses, before, after) && i < |names|
    requires forall k :: 0 <= k < |lines| ==> !AsksToStart(names, codec.decode(lines[k]), i)
    ensures |before.apps| == |after.apps| == |names| && NotStarted(before.apps[i].view, after.apps[i].view)
    decreases |lines|
  {
    hide Effect, NotStarted;
    if lines == [] {
      NotStartedSelf(before.apps[i].view);
    } else {
      var n := |lines| - 1;
      var mid := LastCarriedOut(codec, names, lines, responses, before, after);
      NoStartCarriedOut(codec, names, lines[..n], responses[..n], before, mid, i);
      OnlyStartsStart(names, codec.decode(lines[n]), mid, after, responses[n], i);
      NotStartedTransitive(before.apps[i].view, mid.apps[i].view, after.apps[i].view);
    }
  }

  lemma ControlStartsNothing(setup: Setup, w: World, ev: IoEvent, after: World, i: nat)
    requires ev.token in w.control && ControlStep(setup, w, ev, after) && i < |setup.names|
    requires !StartAsked(setup, w, ev, i)
    ensures |after.apps| == |w.apps| == |setup.names| && NotStarted(w.apps[i].view, after.apps[i].view)
  {
    hide CarriedOut, SessionStep, NotStarted, ControlStep, NewRequests, AsksToStart;
    var done, answers, pool := ControlCarriesOut(setup, w, ev, after);
    OnlyNewRequests(setup, w, ev, after.sessions[w.control[ev.token]], done, answers);
    forall k | 0 <= k < |done| ensures !AsksToStart(setup.names, setup.codec.decode(done[k]), i) {
      assert done[k] == NewRequests(w, ev)[k];
    }
    NoStartCarriedOut(setup.codec, setup.names, done, answers, EstateIn(w), Estate(after.apps, pool), i);
  }

  lemma ReactionStartsNothing(before: AppSnapshot, after: AppSnapshot, ev: IoEvent, tryRestart: bool)
    requires PollOutcome(before, after, ev.token, ForApp(ev), tryRestart)
    ensures NotStarted(before.view, after.view)
  {
    NotStartedSelf(before.view);
    if after.view != before.view {
      var exit, uptime := ev.waited.value, Elapsed(before.view.state.rt.startedAt, ev.waited.value.at);
      StepStartsNothing(before.view, ExitEvent(exit.cause, uptime, exit.decidedAt, tryRestart));
    }
  }

  /** No event starts an app unless it brings a request to. */
  lemma EventStartsNothing(setup: Setup, w: World, ev: IoEvent, after: World, i: nat)
    requires |w.apps| == |setup.names| == |setup.rings| && EventStep(setup, w, ev, after) && i < |w.apps|
    requires !StartAsked(setup, w, ev, i)
    ensures |after.apps| == |w.apps| && NotStarted(w.apps[i].view, after.apps[i].view)
  {
    hide ControlStep, LogStep, ControlAccepted, LogsAccepted, PollOutcome, NotStarted, StartAsked;
    NotStartedSelf(w.apps[i].view);
    if ev.token == SIGNALFD_TOKEN {
    } else if ev.token == UNIX_LISTENER_TOKEN {
      ControlAcceptedKeeps(setup, w, ev.pending, after);
    } else if ev.token == LOG_LISTENER_TOKEN {
      LogsAcceptedKeeps(setup, w, ev.pending, after);
    } else if ev.token in w.control {
      ControlStartsNothing(setup, w, ev, after, i);
    } else if ev.token in w.logs {
      LogStepKeeps(setup, w, ev, after);
    } else {
      ReactionStartsNothing(w.apps[i], after.apps[i], ev, w.sigints == 0);
    }
  }

  /** None of the events from `from` on brings a request to start the app at position `i`. */
  predicate NobodyAsks(setup: Setup, worlds: seq<World>, events: seq<IoEvent>, from: nat, i: nat) {
    |worlds| > |events| && forall e :: from <= e < |events| ==> !StartAsked(setup, worlds[e], events[e], i)
  }

  lemma {:induction false} EventsStartNothing(setup: Setup, worlds: seq<World>, events: seq<IoEvent>, from: nat, k: nat,
      i: nat)
    requires Handled(setup, worlds, events) && from <= k < |worlds| && i < |setup.names|
    requires NobodyAsks(setup, worlds, events, from, i)
    ensures |worlds[from].apps| == |worlds[k].apps| == |setup.names|
    ensures NotStarted(worlds[from].apps[i].view, worlds[k].apps[i].view)
    decreases k
  {
    hide EventStep, NotStarted, StartAsked, SoundWorld;
    SameApps(setup, worlds, events, from);
    SameApps(setup, worlds, events, k);
    if from == k {
      NotStartedSelf(worlds[k].apps[i].view);
    } else {
      SameApps(setup, worlds, events, k - 1);
      EventsStartNothing(setup, worlds, events, from, k - 1, i);
      EventStartsNothing(setup, worlds[k - 1], events[k - 1], worlds[k], i);
      NotStartedTransitive(worlds[from].apps[i].view, worlds[k - 1].apps[i].view, worlds[k].apps[i].view);
    }
  }

  lemma PhaseStartsNothing(before: AppSnapshot, after: AppSnapshot, now: Instant, allowed: bool, pool: Pool)
    requires PhaseOutcome(before, after, now, allowed, pool)
    ensures NotStarted(before.view, after.view)
  {
    var launched := if RestartDue(before.view, now, allowed) then RuntimeOf(after.view.state) else None;
    StepStartsNothing(before.view, Lifecycle.RestartPhase(now, allowed, launched));
  }

  lemma StopStartsNothing(before: AppSnapshot, after: AppSnapshot, force: bool, r: Apps.Result<bool>)
    requires StopOutcome(before, after, force, r)
    ensures NotStarted(before.view, after.view)
  {
    StepStartsNothing(before.view, StopEvent);
  }

  /** After its events an iteration starts nothing. */
  lemma TurnEndStartsNothing(setup: Setup, before: World, wake: Wake, course: Course, after: World, i: nat)
    requires Turn(setup, before, wake, course, after) && i < |before.apps|
    ensures |course.worlds[|wake.events|].apps| == |after.apps| == |before.apps|
    ensures NotStarted(course.worlds[|wake.events|].apps[i].view, after.apps[i].view)
  {
    hide SoundWorld, Pushed, EventStep, NotStarted, PhaseOutcome, StopOutcome;
    TurnSigints(setup, before, wake, course, after);
    SameApps(setup, course.worlds, wake.events, |wake.events|);
    var pool := PhaseAt(course.pushed, course.phased, wake.now, i);
    var polled, phased := course.pushed.apps[i], course.phased.apps[i];
    PhaseStartsNothing(polled, phased, wake.now, course.pushed.sigints == 0, pool);
    if course.phased.sigints > 0 {
      var results :| AllStopped(course.phased.apps, after.apps, course.phased.sigints >= SIGINT_THRESHOLD, results);
      StopStartsNothing(phased, after.apps[i], course.phased.sigints >= SIGINT_THRESHOLD, results[i]);
      NotStartedTransitive(polled.view, phased.view, after.apps[i].view);
    }
  }

  /** An iteration whose events bring no request to start an app does not start it. */
  lemma TurnStartsNothing(setup: Setup, before: World, wake: Wake, course: Course, after: World, i: nat)
    requires Turn(setup, before, wake, course, after) && i < |before.apps|
    requires NobodyAsks(setup, course.worlds, wake.events, 0, i)
    ensures |after.apps| == |before.apps| == |setup.names| && NotStarted(before.apps[i].view, after.apps[i].view)
  {
    hide SoundWorld, PushStep, PhaseStep, StopStep, EventStep, NotStarted, StartAsked;
    var n := |wake.events|;
    SameApps(setup, course.worlds, wake.events, 0);
    EventsStartNothing(setup, course.worlds, wake.events, 0, n, i);
    TurnEndStartsNothing(setup, before, wake, course, after, i);
    NotStartedTransitive(before.apps[i].view, course.worlds[n].apps[i].view, after.apps[i].view);
  }

  lemma {:induction false} StopCarriedOut(codec: Codec, names: seq<Name>, lines: seq<seq<byte>>,
      responses: seq<Response>, before: Estate, after: Estate, p: nat, i: nat)
    requires |lines| == |responses| && CarriedOut(codec, names, lines, responses, before, after) && i < |names|
    requires p < |lines| && AsksToStop(names, codec.decode(lines[p]), i)
    requires forall k :: p < k < |lines| ==> !AsksToStart(names, codec.decode(lines[k]), i)
    ensures |after.apps| == |names| && Quiet(after.apps[i].view)
    decreases |lines|
  {
    hide Effect, Quiet;
    var n := |lines| - 1;
    var mid := LastCarriedOut(codec, names, lines, responses, before, after);
    if p == n {
      StopsMakeQuiet(names, codec.decode(lines[n]), mid, after, responses[n], i);
    } else {
      StopCarriedOut(codec, names, lines[..n], responses[..n], before, mid, p, i);
      OnlyStartsStart(names, codec.decode(lines[n]), mid, after, responses[n], i);
    }
  }

  /** An event that has recorded all the requests it brought has carried them all out. */
  lemma AllCarriedOut(setup: Setup, w: World, ev: IoEvent, after: Session, done: seq<seq<byte>>, answers: seq<Response>)
    requires ev.token in w.control && w.control[ev.token] in w.sessions
    requires SessionStep(setup.codec, w.sessions[w.control[ev.token]], after, ev, done, answers)
    requires NewRequests(w, ev) != []
    requires after.lines == w.sessions[w.control[ev.token]].lines + NewRequests(w, ev)
    ensures done == NewRequests(w, ev)
  {
    hide RequestsIn, Leftover, Flatten, Answered;
    OnlyNewRequests(setup, w, ev, after, done, answers);
    assert done == NewRequests(w, ev)[..|done|];
  }

  /** Request `p` of those an event has brought stops the app at position `i`, none after it asks to start
      the app, and all of them have been carried out. */
  predicate StopCarried(setup: Setup, w: World, ev: IoEvent, after: World, p: nat, i: nat) {
    && ev.token in w.control && w.control[ev.token] in w.sessions && w.control[ev.token] in after.sessions
    && var c, requests := w.control[ev.token], NewRequests(w, ev);
       && after.sessions[c].lines == w.sessions[c].lines + requests
       && p < |requests| && AsksToStop(setup.names, setup.codec.decode(requests[p]), i)
       && forall k :: p < k < |requests| ==> !AsksToStart(setup.names, setup.codec.decode(requests[k]), i)
  }

  /** Event `e` of a batch does so. */
  predicate StopCarriedAt(setup: Setup, worlds: seq<World>, events: seq<IoEvent>, e: nat, p: nat, i: nat) {
    e < |events| && |worlds| == |events| + 1 && StopCarried(setup, worlds[e], events[e], worlds[e + 1], p, i)
  }

  lemma StaysQuiet(before: AppView, after: AppView)
    requires Quiet(before) && NotStarted(before, after)
    ensures after.created == before.created && PendingDeadline(after.state).None?
    ensures after.state.Running? ==> after.state == before.state && after.stopRequested
  {
  }

  /** A request to stop an app that an event has carried out, with no request to start it after that,
      leaves the app so that only an explicit start can bring it up. */
  lemma StopRequestHolds(setup: Setup, w: World, ev: IoEvent, after: World, p: nat, i: nat)
    requires SoundWorld(setup, w) && EventStep(setup, w, ev, after) && i < |w.apps|
    requires StopCarried(setup, w, ev, after, p, i)
    ensures |after.apps| == |w.apps| && Quiet(after.apps[i].view)
  {
    hide CarriedOut, SessionStep, Quiet, ControlStep, NewRequests, AsksToStart, AsksToStop, SoundSnapshot,
      SessionsInOrder, InOrder;
    var c := w.control[ev.token];
    var done, answers, pool := ControlCarriesOut(setup, w, ev, after);
    AllCarriedOut(setup, w, ev, after.sessions[c], done, answers);
    StopCarriedOut(setup.codec, setup.names, done, answers, EstateIn(w), Estate(after.apps, pool), p, i);
  }

  // Exits are handled

  /** An event that says the process of a running app has exited. */
  predicate ReportsExit(ev: IoEvent, app: AppSnapshot) {
    && app.view.state.Running? && ev.token == app.view.state.rt.tokens.pidfd
    && ev.readable && ev.waited.Some?
  }

  /** The event reaches the app, and the app's runtime is cleaned up. */
  lemma ExitReaches(setup: Setup, w: World, ev: IoEvent, after: World, i: nat)
    requires SoundWorld(setup, w) && EventStep(setup, w, ev, after) && i < |w.apps| && ReportsExit(ev, w.apps[i])
    ensures i < |after.apps| && Exited(w.apps[i].view, after.apps[i].view, ev.waited.value, w.sigints == 0)
    ensures after.apps[i].view.cleaned == w.apps[i].view.cleaned + 1
    ensures after.apps[i]
            == Drained(w.apps[i], ev.stdout.Yield(), ev.stderr.Yield()).(view := after.apps[i].view)
  {
    hide ControlStep, LogStep, ControlAccepted, LogsAccepted, SoundSnapshot, Drained, SessionsInOrder, InOrder;
    assert AppApart(w, i) && ev.token in TokenSet(Held(w.apps[i].view.state));
    assert PollOutcome(w.apps[i], after.apps[i], ev.token, ForApp(ev), w.sigints == 0);
  }

  /** Everything the process of an app has left in its pipes is saved, each byte as its stream's, if and
      only if neither pipe fails before it is empty. */
  lemma ExitSavesAll(setup: Setup, w: World, ev: IoEvent, after: World, i: nat)
    requires SoundWorld(setup, w) && EventStep(setup, w, ev, after) && i < |w.apps| && ReportsExit(ev, w.apps[i])
    ensures i < |after.apps|
    ensures (&& after.apps[i].log == w.apps[i].log + ev.stdout.avail + ev.stderr.avail
             && after.apps[i].stdout == w.apps[i].stdout + ev.stdout.avail
             && after.apps[i].stderr == w.apps[i].stderr + ev.stderr.avail)
            <==> ev.stdout.Lasts() && ev.stderr.Lasts()
  {
    hide SoundWorld, EventStep;
    ExitReaches(setup, w, ev, after, i);
    if after.apps[i].stdout == w.apps[i].stdout + ev.stdout.avail {
      assert |ev.stdout.Yield()| == |ev.stdout.avail|;
    }
    if after.apps[i].stderr == w.apps[i].stderr + ev.stderr.avail {
      assert |ev.stderr.Yield()| == |ev.stderr.avail|;
    }
  }

  lemma PhaseIsOnward(before: AppSnapshot, after: AppSnapshot, now: Instant, allowed: bool, pool: Pool)
    requires PhaseOutcome(before, after, now, allowed, pool)
    ensures Onward(before.view, after.view)
  {
    var launched := if RestartDue(before.view, now, allowed) then RuntimeOf(after.view.state) else None;
    StepIsOnward(before.view, Lifecycle.RestartPhase(now, allowed, launched));
  }

  lemma StopIsOnward(before: AppSnapshot, after: AppSnapshot, force: bool, r: Apps.Result<bool>)
    requires StopOutcome(before, after, force, r)
    ensures Onward(before.view, after.view)
  {
    StepIsOnward(before.view, StopEvent);
  }

  /** After the events of an iteration an app only goes on. */
  lemma TurnEndsOnward(setup: Setup, before: World, wake: Wake, course: Course, after: World, i: nat)
    requires Turn(setup, before, wake, course, after) && i < |before.apps|
    ensures |course.worlds[|wake.events|].apps| == |after.apps| == |before.apps|
    ensures Onward(course.worlds[|wake.events|].apps[i].view, after.apps[i].view)
  {
    hide SoundWorld, Pushed, EventStep, Onward, PhaseOutcome, StopOutcome, AllNoRestart;
    TurnSigints(setup, before, wake, course, after);
    SameApps(setup, course.worlds, wake.events, |wake.events|);
    var pool := PhaseAt(course.pushed, course.phased, wake.now, i);
    var polled, phased := course.pushed.apps[i], course.phased.apps[i];
    PhaseIsOnward(polled, phased, wake.now, course.pushed.sigints == 0, pool);
    if course.phased.sigints > 0 {
      var results :| AllStopped(course.phased.apps, after.apps, course.phased.sigints >= SIGINT_THRESHOLD, results);
      StopIsOnward(phased, after.apps[i], course.phased.sigints >= SIGINT_THRESHOLD, results[i]);
      OnwardTransitive(polled.view, phased.view, after.apps[i].view);
    }
  }

  lemma BatchNoRestart(setup: Setup, worlds: seq<World>, events: seq<IoEvent>, j: nat, k: nat, i: nat)
    requires Handled(setup, worlds, events) && j <= k < |worlds| && i < |setup.names|
    ensures |worlds[j].apps| == |worlds[k].apps| == |setup.names|
    ensures NoRestart(worlds[j].apps[i].view, worlds[k].apps[i].view)
  {
    hide EventStep, SoundSnapshot, TokensApart, NoRestart;
    EventsAreNoRestarts(setup, worlds, events, j, k);
  }

  /** If a batch reports that the process of an app has exited, the app's runtime has been cleaned up
      by the end of the iteration. */
  lemma ExitIsHandled(setup: Setup, before: World, wake: Wake, course: Course, after: World, i: nat, k: nat)
    requires Turn(setup, before, wake, course, after)
    requires i < |before.apps| && k < |wake.events| && ReportsExit(wake.events[k], before.apps[i])
    ensures |after.apps| == |before.apps| && after.apps[i].view.cleaned > before.apps[i].view.cleaned
  {
    hide Pushed, EventStep, PhaseStep, StopStep, SoundWorld, AllNoRestart, PushStep;
    var worlds, n := course.worlds, |wake.events|;
    SameApps(setup, worlds, wake.events, k);
    SameApps(setup, worlds, wake.events, k + 1);
    SameApps(setup, worlds, wake.events, n);
    BatchNoRestart(setup, worlds, wake.events, 0, k, i);
    if worlds[k].apps[i].view.cleaned == before.apps[i].view.cleaned {
      ExitReaches(setup, worlds[k], wake.events[k], worlds[k + 1], i);
    } else {
      BatchNoRestart(setup, worlds, wake.events, k, k + 1, i);
    }
    BatchNoRestart(setup, worlds, wake.events, k + 1, n, i);
    TurnEndsOnward(setup, before, wake, course, after, i);
  }

  /** The events report the exit of every app that runs. */
  ghost predicate AllExit(events: seq<IoEvent>, apps: seq<AppSnapshot>) {
    forall i :: 0 <= i < |apps| && apps[i].view.state.Running? ==>
      exists k :: 0 <= k < |events| && ReportsExit(events[k], apps[i])
  }

  lemma EndsAreSound(setup: Setup, before: World, wake: Wake, course: Course, after: World, i: nat)
    requires Turn(setup, before, wake, course, after) && i < |after.apps|
    ensures |before.apps| == |after.apps| == |setup.names|
    ensures Sound(before.apps[i].view) && Sound(after.apps[i].view)
  {
    hide EventStep, PushStep, PhaseStep, StopStep, TokensApart, Sound;
    assert SoundWorld(setup, course.worlds[0]);
    assert SoundSnapshot(before.apps[i]) && SoundSnapshot(after.apps[i]);
  }

  lemma SameRestarts(before: AppView, after: AppView)
    requires NoRestart(before, after)
    ensures after.restartCount == before.restartCount
  {
  }

  /** An app that was neither restarted nor started got no runtime. */
  lemma SameRuntimes(before: AppView, after: AppView)
    requires NoRestart(before, after) && NotStarted(before, after)
    ensures after.created == before.created
  {
  }

  /** An iteration that ends interrupted, in which every app that runs exits and no request to start any
      comes in, is the last: the loop is left at its end. */
  lemma LastExitLeaves(setup: Setup, before: World, wake: Wake, course: Course, after: World, keepRunning: bool)
    requires Turn(setup, before, wake, course, after) && after.sigints > 0
    requires AllExit(wake.events, before.apps)
    requires forall i :: 0 <= i < |before.apps| ==> NobodyAsks(setup, course.worlds, wake.events, 0, i)
    ensures MayLeave(keepRunning, after)
  {
    hide Turn, NoRestart, Sound, Onward, NotStarted, NobodyAsks;
    InterruptedTurn(setup, before, wake, course, after);
    forall i | 0 <= i < |after.apps| ensures !after.apps[i].view.state.Running? {
      EndsAreSound(setup, before, wake, course, after, i);
      if before.apps[i].view.state.Running? {
        var k :| 0 <= k < |wake.events| && ReportsExit(wake.events[k], before.apps[i]);
        ExitIsHandled(setup, before, wake, course, after, i, k);
      }
      TurnStartsNothing(setup, before, wake, course, after, i);
      SameRuntimes(before.apps[i].view, after.apps[i].view);
      RetiredIsDown(before.apps[i].view, after.apps[i].view);
    }
  }

  // What only grows

  /** The apps' output as it was, with perhaps more after it. */
  ghost predicate OutputGrows(before: seq<AppSnapshot>, after: seq<AppSnapshot>) {
    && |before| == |after|
    && forall i :: 0 <= i < |before| ==>
        && before[i].log <= after[i].log
        && before[i].stdout <= after[i].stdout
        && before[i].stderr <= after[i].stderr
  }

  /** What a control connection has received and been sent, with perhaps more after it. */
  ghost predicate SessionsGrow(before: Sessions, after: Sessions) {
    forall c :: c in before ==> c in after && before[c].received <= after[c].received && before[c].sent <= after[c].sent
  }

  /** From one moment to a later one: readers have only gone on, output and traffic have only grown,
      and what was lost is accounted for by failures. */
  ghost predicate Grows(before: World, after: World) {
    && OutputGrows(before.apps, after.apps)
    && SessionsGrow(before.sessions, after.sessions)
    && AllExtend(before.feeds, after.feeds)
    && PaidFor(before.pool.lost, after.pool.lost)
    && before.sigints <= after.sigints
  }

  lemma GrowsSelf(w: World)
    ensures Grows(w, w)
  {
  }

  lemma OutputGrowsTransitive(a: seq<AppSnapshot>, b: seq<AppSnapshot>, c: seq<AppSnapshot>)
    requires OutputGrows(a, b) && OutputGrows(b, c)
    ensures OutputGrows(a, c)
  {
  }

  lemma SessionsGrowTransitive(a: Sessions, b: Sessions, c: Sessions)
    requires SessionsGrow(a, b) && SessionsGrow(b, c)
    ensures SessionsGrow(a, c)
  {
  }

  lemma GrowsTransitive(a: World, b: World, c: World)
    requires Grows(a, b) && Grows(b, c)
    ensures Grows(a, c)
  {
    hide OutputGrows, SessionsGrow, AllExtend;
    OutputGrowsTransitive(a.apps, b.apps, c.apps);
    SessionsGrowTransitive(a.sessions, b.sessions, c.sessions);
    AllExtendTransitive(a.feeds, b.feeds, c.feeds);
  }

  lemma FeedExtends(before: Feed, ev: IoEvent, logs: seq<LogView>)
    requires before.Orderly(logs)
    ensures Extends(before.reader, FeedAfter(before, ev, logs).reader)
  {
    hide Feed.Orderly, Feed.Sound, Feed.Served, Feed.ReadHalf, Feed.Finish, Extends;
    ExtendsSelf(before.reader);
    OrderlyIsSound(before, logs);
    if ev.readable {
      ReadHalfServes(before, logs, ev.arrivals, ev.end, ev.outlet);
      var g := before.ReadHalf(ev.arrivals, ev.end, logs, ev.outlet);
      if !g.broken {
        FinishServes(g, ev.writable, logs, ev.link);
        ExtendsTransitive(before.reader, g.reader, g.Finish(ev.writable, logs, ev.link).reader);
      }
    } else {
      FinishSettles(before, ev.writable, logs, ev.link);
    }
  }

  lemma LogEventGrows(setup: Setup, w: World, ev: IoEvent, after: World)
    requires ev.token in w.logs && SoundWorld(setup, w) && LogStep(setup, w, ev, after)
    ensures Grows(w, after)
  {
    hide FeedAfter, Extends, Feed.Dropped, SoundSnapshot, TokensApart, SessionsInOrder, Feed.Orderly;
    var c := w.logs[ev.token];
    FeedExtends(w.feeds[c], ev, LogsIn(setup, w));
    forall d | d in w.feeds ensures d in after.feeds && Extends(w.feeds[d].reader, after.feeds[d].reader) {
      ExtendsSelf(w.feeds[d].reader);
    }
  }

  /** What a control connection has received and been sent only grows. */
  lemma SessionGrows(codec: Codec, before: Session, after: Session, ev: IoEvent, done: seq<seq<byte>>,
      answers: seq<Response>)
    requires before.Orderly(codec) && SessionStep(codec, before, after, ev, done, answers)
    ensures before.received <= after.received && before.sent <= after.sent
  {
    hide RequestsIn, Leftover, Flatten, Answered, Session.Finish;
    FinishGrows(before, ev.writable, ev.link);
    if ev.readable {
      var read := before.Read(ev.arrivals, ev.end);
      FinishGrows(read.Handle(codec, Leftover(read.buf), done, answers), ev.writable, ev.link);
    }
  }

  lemma ControlEventGrows(setup: Setup, w: World, ev: IoEvent, after: World)
    requires ev.token in w.control && SoundWorld(setup, w) && ControlStep(setup, w, ev, after)
    ensures Grows(w, after)
  {
    hide CarriedOut, NoRestart, SessionStep, Session.Orderly, Session.Dropped, SoundSnapshot, TokensApart, InOrder;
    AllExtendSelf(w.feeds);
    ControlIsNoRestart(setup, w, ev, after);
    var done, answers, pool := ControlCarriesOut(setup, w, ev, after);
    var c := w.control[ev.token];
    SessionGrows(setup.codec, w.sessions[c], after.sessions[c], ev, done, answers);
  }

  lemma AppEventGrows(setup: Setup, w: World, ev: IoEvent, after: World)
    requires AppStep(w, ev, after)
    ensures Grows(w, after)
  {
    hide AllExtend;
    AllExtendSelf(w.feeds);
    forall i | 0 <= i < |w.apps|
      ensures w.apps[i].log <= after.apps[i].log
      ensures w.apps[i].stdout <= after.apps[i].stdout && w.apps[i].stderr <= after.apps[i].stderr
    {
      assert PollOutcome(w.apps[i], after.apps[i], ev.token, ForApp(ev), w.sigints == 0);
    }
  }

  lemma EventGrows(setup: Setup, w: World, ev: IoEvent, after: World)
    requires SoundWorld(setup, w) && EventStep(setup, w, ev, after)
    ensures Grows(w, after)
  {
    hide ControlStep, LogStep, AppStep, ControlAccepted, LogsAccepted, Extends, SoundSnapshot, TokensApart,
      SessionsInOrder, InOrder;
    GrowsSelf(w);
    if ev.token == SIGNALFD_TOKEN {
    } else if ev.token == UNIX_LISTENER_TOKEN {
      ControlAcceptedKeeps(setup, w, ev.pending, after);
    } else if ev.token == LOG_LISTENER_TOKEN {
      LogsAcceptedKeeps(setup, w, ev.pending, after);
    } else if ev.token in w.control {
      ControlEventGrows(setup, w, ev, after);
    } else if ev.token in w.logs {
      LogEventGrows(setup, w, ev, after);
    } else {
      AppEventGrows(setup, w, ev, after);
    }
  }

  lemma {:induction false} EventsGrow(setup: Setup, worlds: seq<World>, events: seq<IoEvent>, k: nat)
    requires Handled(setup, worlds, events) && k < |worlds|
    ensures Grows(worlds[0], worlds[k])
  {
    hide EventStep, Grows, SoundWorld;
    if k == 0 {
      GrowsSelf(worlds[0]);
    } else {
      EventsGrow(setup, worlds, events, k - 1);
      EventGrows(setup, worlds[k - 1], events[k - 1], worlds[k]);
      GrowsTransitive(worlds[0], worlds[k - 1], worlds[k]);
    }
  }

  lemma PushGrows(setup: Setup, w: World, links: Token -> Kernel.Link, after: World)
    requires SoundWorld(setup, w) && PushStep(setup, w, links, after)
    ensures Grows(w, after)
  {
    hide Pushed, AllExtend, SoundSnapshot, TokensApart, SessionsInOrder, InOrder;
    PushedExtends(w.logs, after.logs, w.feeds, after.feeds, LogsIn(setup, w), links);
  }

  lemma PhaseKeepsOutput(before: AppSnapshot, after: AppSnapshot, now: Instant, allowed: bool, pool: Pool)
    requires PhaseOutcome(before, after, now, allowed, pool)
    ensures after.log == before.log && after.stdout == before.stdout && after.stderr == before.stderr
  {
  }

  lemma PhaseGrows(w: World, after: World, now: Instant)
    requires PhaseStep(w, after, now)
    ensures Grows(w, after)
  {
    hide AllExtend, PhaseOutcome, AfterPhases;
    AllExtendSelf(w.feeds);
    forall i | 0 <= i < |w.apps|
      ensures w.apps[i].log == after.apps[i].log
      ensures w.apps[i].stdout == after.apps[i].stdout && w.apps[i].stderr == after.apps[i].stderr
    {
      var pool := PhaseAt(w, after, now, i);
      PhaseKeepsOutput(w.apps[i], after.apps[i], now, w.sigints == 0, pool);
    }
    assert w.apps[..|w.apps|] == w.apps;
    PhasesArePaidFor(w.apps, now, w.sigints == 0, w.pool);
  }

  lemma StopGrows(w: World, after: World)
    requires StopStep(w, after)
    ensures Grows(w, after)
  {
    hide AllExtend;
    AllExtendSelf(w.feeds);
    GrowsSelf(w);
    if w.sigints > 0 {
      var force := w.sigints >= SIGINT_THRESHOLD;
      var results :| AllStopped(w.apps, after.apps, force, results);
      forall i | 0 <= i < |w.apps|
        ensures w.apps[i].log == after.apps[i].log
        ensures w.apps[i].stdout == after.apps[i].stdout && w.apps[i].stderr == after.apps[i].stderr
      {
        assert StopOutcome(w.apps[i], after.apps[i], force, results[i]);
      }
    }
  }

  /** Over a whole iteration everything that only grows has only grown. */
  lemma TurnGrows(setup: Setup, before: World, wake: Wake, course: Course, after: World)
    requires Turn(setup, before, wake, course, after)
    ensures Grows(before, after)
  {
    hide EventStep, Grows, SoundWorld, PushStep, PhaseStep, StopStep;
    var n := |wake.events|;
    EventsGrow(setup, course.worlds, wake.events, n);
    PushGrows(setup, course.worlds[n], wake.links, course.pushed);
    PhaseGrows(course.pushed, course.phased, wake.now);
    StopGrows(course.phased, after);
    GrowsTransitive(before, course.worlds[n], course.pushed);
    GrowsTransitive(before, course.pushed, course.phased);
    GrowsTransitive(before, course.phased, after);
  }

  // Whole histories

  function MaxReal(x: real, y: real): real {
    if x >= y then x else y
  }

  /** A wait for events that begins at `at`. It is unlimited exactly if no restart is pending. Otherwise
      it ends at a pending deadline, or at once if that has passed, and past none. */
  ghost predicate WakesInTime(apps: seq<AppSnapshot>, at: Instant, timeout: Option<real>) {
    && (timeout.None? <==> forall i :: 0 <= i < |apps| ==> PendingDeadline(apps[i].view.state).None?)
    && (timeout.Some? ==>
          && timeout.value >= 0.0
          && (forall i :: 0 <= i < |apps| && PendingDeadline(apps[i].view.state).Some? ==>
                timeout.value == 0.0 || at + timeout.value <= PendingDeadline(apps[i].view.state).value)
          && (exists i :: 0 <= i < |apps| && PendingDeadline(apps[i].view.state).Some?
                          && at + timeout.value == MaxReal(at, PendingDeadline(apps[i].view.state).value)))
  }

  /** What one iteration adds to the history: how long it waited at most, and its course. */
  datatype Lap = Lap(timeout: Option<real>, course: Course)

  /** The daemon at the beginning and after each iteration. */
  ghost predicate IsHistory(setup: Setup, history: seq<World>, wakes: seq<Wake>, laps: seq<Lap>) {
    && |history| == |laps| + 1 <= |wakes| + 1
    && (forall k :: 0 <= k < |laps| ==> Turn(setup, history[k], wakes[k], laps[k].course, history[k + 1]))
    && (forall k :: 0 <= k < |laps| ==> WakesInTime(history[k].apps, wakes[k].started, laps[k].timeout))
  }

  lemma HistoryBegins(setup: Setup, w: World, wakes: seq<Wake>)
    ensures IsHistory(setup, [w], wakes, [])
  {
  }

  lemma HistoryGoesOn(setup: Setup, history: seq<World>, wakes: seq<Wake>, laps: seq<Lap>, lap: Lap, next: World)
    requires IsHistory(setup, history, wakes, laps) && |laps| < |wakes|
    requires Turn(setup, history[|laps|], wakes[|laps|], lap.course, next)
    requires WakesInTime(history[|laps|].apps, wakes[|laps|].started, lap.timeout)
    ensures IsHistory(setup, history + [next], wakes, laps + [lap])
  {
    hide Turn, WakesInTime;
  }

  /** The interrupts recorded are those the events brought. */
  lemma {:induction false} InterruptsAreCounted(setup: Setup, history: seq<World>, wakes: seq<Wake>, laps: seq<Lap>,
      k: nat)
    requires IsHistory(setup, history, wakes, laps) && k < |history|
    ensures history[k].sigints == history[0].sigints + SigintsIn(wakes[..k])
  {
    hide Turn, WakesInTime;
    if k > 0 {
      InterruptsAreCounted(setup, history, wakes, laps, k - 1);
      TurnSigints(setup, history[k - 1], wakes[k - 1], laps[k - 1].course, history[k]);
      assert wakes[..k][..k - 1] == wakes[..k - 1];
    }
  }

  /** From any moment to any later one: readers have only gone on, output and traffic have only grown,
      and what was lost is accounted for by failures. */
  lemma {:induction false} HistoryGrows(setup: Setup, history: seq<World>, wakes: seq<Wake>, laps: seq<Lap>, j: nat,
      k: nat)
    requires IsHistory(setup, history, wakes, laps) && j <= k < |history|
    ensures Grows(history[j], history[k])
    decreases k
  {
    hide Turn, WakesInTime, Grows;
    if j == k {
      GrowsSelf(history[j]);
    } else {
      HistoryGrows(setup, history, wakes, laps, j, k - 1);
      TurnGrows(setup, history[k - 1], wakes[k - 1], laps[k - 1].course, history[k]);
      GrowsTransitive(history[j], history[k - 1], history[k]);
    }
  }

  /** A daemon that begins without losses has leaked at most three tokens for each launch and each
      registration that failed. As long as none has, none is leaked, and the tokens out are exactly
      three per running app and one per connection. */
  lemma LeaksArePaidFor(setup: Setup, history: seq<World>, wakes: seq<Wake>, laps: seq<Lap>, k: nat)
    requires IsHistory(setup, history, wakes, laps) && 0 < k < |history| && history[0].pool.lost == Losses(0, 0)
    ensures history[k].pool.lost.leaked <= 3 * history[k].pool.lost.failures
    ensures history[k].pool.lost.failures == 0 ==>
              history[k].pool.out
              == 3 * RunningCount(HeldsIn(history[k].apps)) + |history[k].control| + |history[k].logs|
  {
    hide EventStep, PushStep, PhaseStep, StopStep, WakesInTime, TokensApart, SoundSnapshot, OutputGrows, SessionsGrow,
      AllExtend, Handled, SessionsInOrder, InOrder;
    HistoryGrows(setup, history, wakes, laps, 0, k);
    assert Turn(setup, history[k - 1], wakes[k - 1], laps[k - 1].course, history[k]);
  }

  /** From the iteration of the first interrupt on, no app is restarted automatically. */
  lemma {:induction false} NoRestartsAfterInterrupt(setup: Setup, history: seq<World>, wakes: seq<Wake>,
      laps: seq<Lap>, j: nat, k: nat)
    requires IsHistory(setup, history, wakes, laps) && j < k < |history| && history[j + 1].sigints > 0
    ensures history[k].sigints > 0 && AllNoRestart(history[j].apps, history[k].apps) && AllDown(history[k].apps)
    decreases k
  {
    hide Turn, WakesInTime, AllNoRestart, AllDown;
    TurnSigints(setup, history[k - 1], wakes[k - 1], laps[k - 1].course, history[k]);
    if j + 1 < k {
      NoRestartsAfterInterrupt(setup, history, wakes, laps, j, k - 1);
      InterruptedTurn(setup, history[k - 1], wakes[k - 1], laps[k - 1].course, history[k]);
      AllNoRestartTransitive(history[j].apps, history[k - 1].apps, history[k].apps);
    } else {
      InterruptedTurn(setup, history[j], wakes[j], laps[j].course, history[k]);
    }
  }

  /** No request to start the app at position `i` comes in from iteration `j` up to iteration `k`. */
  ghost predicate NobodyAsksBetween(setup: Setup, wakes: seq<Wake>, laps: seq<Lap>, j: nat, k: nat, i: nat) {
    && k <= |laps| <= |wakes|
    && forall m :: j <= m < k ==> NobodyAsks(setup, laps[m].course.worlds, wakes[m].events, 0, i)
  }

  /** Without a request to, no app is started in any number of iterations. */
  lemma {:induction false} HistoryStartsNothing(setup: Setup, history: seq<World>, wakes: seq<Wake>, laps: seq<Lap>,
      j: nat, k: nat, i: nat)
    requires IsHistory(setup, history, wakes, laps) && j < k < |history| && i < |history[j].apps|
    requires NobodyAsksBetween(setup, wakes, laps, j, k, i)
    ensures |history[k].apps| == |history[j].apps| && NotStarted(history[j].apps[i].view, history[k].apps[i].view)
    decreases k
  {
    hide Turn, WakesInTime, NotStarted, NobodyAsks;
    if j + 1 < k {
      HistoryStartsNothing(setup, history, wakes, laps, j, k - 1, i);
      TurnStartsNothing(setup, history[k - 1], wakes[k - 1], laps[k - 1].course, history[k], i);
      NotStartedTransitive(history[j].apps[i].view, history[k - 1].apps[i].view, history[k].apps[i].view);
    } else {
      TurnStartsNothing(setup, history[j], wakes[j], laps[j].course, history[k], i);
    }
  }

  /** An app that only a start can bring up stays so over any number of iterations in which nobody asks for
      it: it gets no new runtime, no restart of it is pending, and if it runs it is still the same process
      that was asked to stop. */
  lemma StopIsKept(setup: Setup, history: seq<World>, wakes: seq<Wake>, laps: seq<Lap>, j: nat, k: nat, i: nat)
    requires IsHistory(setup, history, wakes, laps) && j < k < |history| && i < |history[j].apps|
    requires NobodyAsksBetween(setup, wakes, laps, j, k, i) && Quiet(history[j].apps[i].view)
    ensures |history[k].apps| == |history[j].apps|
    ensures var stopped, later := history[j].apps[i].view, history[k].apps[i].view;
            && later.created == stopped.created && PendingDeadline(later.state).None?
            && (later.state.Running? ==> later.state == stopped.state && later.stopRequested)
  {
    hide IsHistory, NobodyAsksBetween;
    HistoryStartsNothing(setup, history, wakes, laps, j, k, i);
  }

  /** A request to stop an app that an event of iteration `m` has carried out holds at the end of that
      iteration and for as long after it as nobody asks to start the app. */
  lemma StopRequestIsKept(setup: Setup, history: seq<World>, wakes: seq<Wake>, laps: seq<Lap>, m: nat, e: nat, p: nat,
      k: nat, i: nat)
    requires IsHistory(setup, history, wakes, laps) && m < k < |history| && i < |setup.names|
    requires StopCarriedAt(setup, laps[m].course.worlds, wakes[m].events, e, p, i)
    requires NobodyAsks(setup, laps[m].course.worlds, wakes[m].events, e + 1, i)
    requires NobodyAsksBetween(setup, wakes, laps, m + 1, k, i)
    ensures |history[k].apps| == |laps[m].course.worlds[e + 1].apps| == |setup.names|
    ensures var stopped, later := laps[m].course.worlds[e + 1].apps[i].view, history[k].apps[i].view;
            && later.created == stopped.created && PendingDeadline(later.state).None?
            && (later.state.Running? ==> later.state == stopped.state && later.stopRequested)
  {
    hide WakesInTime, NotStarted, NobodyAsks, EventStep, SoundWorld, PushStep, PhaseStep, StopStep, StopCarried;
    var worlds, n := laps[m].course.worlds, |wakes[m].events|;
    assert Turn(setup, history[m], wakes[m], laps[m].course, history[m + 1]);
    SameApps(setup, worlds, wakes[m].events, e);
    SameApps(setup, worlds, wakes[m].events, e + 1);
    SameApps(setup, worlds, wakes[m].events, 0);
    StopRequestHolds(setup, worlds[e], wakes[m].events[e], worlds[e + 1], p, i);
    EventsStartNothing(setup, worlds, wakes[m].events, e + 1, n, i);
    TurnEndStartsNothing(setup, history[m], wakes[m], laps[m].course, history[m + 1], i);
    NotStartedTransitive(worlds[e + 1].apps[i].view, worlds[n].apps[i].view, history[m + 1].apps[i].view);
    if m + 1 < k {
      HistoryStartsNothing(setup, history, wakes, laps, m + 1, k, i);
      NotStartedTransitive(worlds[e + 1].apps[i].view, history[m + 1].apps[i].view, history[k].apps[i].view);
    }
    StaysQuiet(worlds[e + 1].apps[i].view, history[k].apps[i].view);
  }

  /** The apps that run, with the runtimes they run. */
  ghost function Up(apps: seq<AppSnapshot>): set<(nat, AppRuntime)> {
    set i | 0 <= i < |apps| && apps[i].view.state.Running? :: (i, apps[i].view.state.rt)
  }

  /** From the iteration of the first interrupt on, if no request to start an app comes in, what runs can
      only become less, and the loop may be left as soon as it is nothing. */
  lemma ShutdownConverges(setup: Setup, history: seq<World>, wakes: seq<Wake>, laps: seq<Lap>, keepRunning: bool,
      j: nat, k: nat)
    requires IsHistory(setup, history, wakes, laps) && j < k < |history| && history[j + 1].sigints > 0
    requires forall i :: 0 <= i < |history[j].apps| ==> NobodyAsksBetween(setup, wakes, laps, j, k, i)
    ensures Up(history[k].apps) <= Up(history[j].apps)
    ensures MayLeave(keepRunning, history[k]) <==> Up(history[k].apps) == {}
  {
    hide IsHistory, NobodyAsksBetween, NotStarted;
    NoRestartsAfterInterrupt(setup, history, wakes, laps, j, k);
    var before, after := history[j].apps, history[k].apps;
    forall i | 0 <= i < |after| && after[i].view.state.Running?
      ensures before[i].view.state.Running? && after[i].view.state == before[i].view.state
      ensures (i, after[i].view.state.rt) in Up(after)
    {
      assert NoRestart(before[i].view, after[i].view);
      HistoryStartsNothing(setup, history, wakes, laps, j, k, i);
      SameRuntimes(before[i].view, after[i].view);
    }
  }

  /** The iteration that handles the last exit is the last: if, in an iteration that ends interrupted,
      everything still running exits and no request to start an app comes in, the loop may be left at its
      end. */
  lemma LastExitIsTheEnd(setup: Setup, history: seq<World>, wakes: seq<Wake>, laps: seq<Lap>, keepRunning: bool, k: nat)
    requires IsHistory(setup, history, wakes, laps) && k < |laps| && history[k + 1].sigints > 0
    requires AllExit(wakes[k].events, history[k].apps)
    requires forall i :: 0 <= i < |history[k].apps| ==>
               NobodyAsks(setup, laps[k].course.worlds, wakes[k].events, 0, i)
    ensures MayLeave(keepRunning, history[k + 1])
  {
    hide Turn, WakesInTime, NobodyAsks;
    LastExitLeaves(setup, history[k], wakes[k], laps[k].course, history[k + 1], keepRunning);
  }
}
