/** The daemon as a state machine: all there is to say about it at one moment, and what each event and
    each phase of an iteration makes of it. */
module DaemonSteps {
  import opened Basics
  import opened Lifecycle
  import opened TokenSlab
  import opened Apps
  import opened Fleet
  import opened Framing
  import opened LogIpc
  import opened ControlIpc
  import opened ControlServer
  import Kernel

  const UNIX_LISTENER_TOKEN: Token := 0

  const SIGNALFD_TOKEN: Token := 1

  const LOG_LISTENER_TOKEN: Token := 2

  const RESERVED_MIO_TOKENS: nat := 3

  const SIGINT_THRESHOLD: nat := 2

  const SIGINT: int := 2

  /** An event and everything the system has to say about its token when it is handled: the signal
      read, which of the connections pending can be registered, the bytes to read, what the socket takes
      right after that and what at the end of the event, the pipes of an app, and how it exited. */
  datatype IoEvent = IoEvent(
    token: Token,
    readable: bool,
    writable: bool,
    signal: int,
    pending: seq<bool>,
    arrivals: seq<seq<byte>>,
    end: Kernel.ReadEnd,
    outlet: Kernel.Outlet,
    link: Kernel.Link,
    stdout: Kernel.Pipe,
    stderr: Kernel.Pipe,
    waited: Option<ExitReport>)

  /** An event as an app sees it. */
  function ForApp(ev: IoEvent): AppEvent {
    Apps.AppEvent(ev.readable, ev.stdout, ev.stderr, ev.waited)
  }

  /** One return of `poll`: the clock when the wait began, the events, the sockets of the connections
      when the push comes to them, and the clock of the restart phase. */
  datatype Wake = Wake(started: Instant, events: seq<IoEvent>, links: Token -> Kernel.Link, now: Instant)

  /** What never changes about a daemon. */
  datatype Setup = Setup(names: seq<Name>, rings: seq<nat>, codec: Codec, maxControl: nat, maxLogs: nat)

  /** The daemon at one moment: its apps, the pool of tokens, the open connections and what is on record
      of all connections ever, and the interrupts so far. */
  datatype World = World(
    apps: seq<AppSnapshot>,
    pool: Pool,
    control: map<Token, ControlConnection>,
    sessions: Sessions,
    logs: map<Token, LogConnection>,
    feeds: Feeds,
    sigints: nat)

  function EstateIn(w: World): Estate {
    Estate(w.apps, w.pool)
  }

  /** The logs of the apps. */
  function LogsIn(setup: Setup, w: World): (logs: seq<LogView>)
    requires |w.apps| == |setup.names| == |setup.rings|
    ensures |logs| == |w.apps|
    ensures forall i :: 0 <= i < |logs| ==> logs[i] == LogView(setup.names[i], w.apps[i].log, setup.rings[i])
  {
    seq(|w.apps|, i requires 0 <= i < |w.apps| => LogView(setup.names[i], w.apps[i].log, setup.rings[i]))
  }

  function HeldsIn(apps: seq<AppSnapshot>): (helds: seq<Option<AppRtTokens>>)
    ensures |helds| == |apps|
    ensures forall i :: 0 <= i < |apps| ==> helds[i] == Held(apps[i].view.state)
  {
    seq(|apps|, i requires 0 <= i < |apps| => Held(apps[i].view.state))
  }

  /** An app's tokens are clear of the reserved ones, and nobody else's. */
  ghost predicate AppApart(w: World, i: nat)
    requires i < |w.apps|
  {
    forall t :: t in TokenSet(Held(w.apps[i].view.state)) ==>
      && t >= RESERVED_MIO_TOKENS && t !in w.control && t !in w.logs
      && forall j :: 0 <= j < |w.apps| && j != i ==> t !in TokenSet(Held(w.apps[j].view.state))
  }

  /** No token has two holders, and all are clear of the reserved ones. */
  ghost predicate TokensApart(w: World) {
    && w.control.Keys !! w.logs.Keys
    && (forall t :: t in w.control.Keys + w.logs.Keys ==> t >= RESERVED_MIO_TOKENS)
    && forall i :: 0 <= i < |w.apps| ==> AppApart(w, i)
  }

  /** The open control connections are filed under their own tokens and between events. */
  ghost predicate SessionsInOrder(setup: Setup, w: World) {
    forall t :: t in w.control ==>
      && w.control[t].token == t && w.control[t] in w.sessions
      && w.sessions[w.control[t]].Orderly(setup.codec)
  }

  /** What is true of the daemon at any moment between events: its apps are sound, tokens are apart,
      those out are three per running app, one per connection, and the leaked ones, and the open
      connections are in order. */
  ghost predicate SoundWorld(setup: Setup, w: World) {
    && |w.apps| == |setup.names| == |setup.rings|
    && (forall i :: 0 <= i < |w.apps| ==> SoundSnapshot(w.apps[i]))
    && TokensApart(w)
    && w.pool.out == 3 * RunningCount(HeldsIn(w.apps)) + |w.control| + |w.logs| + w.pool.lost.leaked
    && SessionsInOrder(setup, w) && InOrder(w.logs, w.feeds, LogsIn(setup, w))
  }

  // What each event does

  /** A round of taking in control connections. */
  ghost predicate ControlAccepted(setup: Setup, w: World, pending: seq<bool>, after: World) {
    && after == w.(control := after.control, sessions := after.sessions, pool := after.pool)
    && Kept(w.control, after.control) && Kept(w.sessions, after.sessions)
    && (forall t :: t in after.control && t !in w.control ==>
          after.control[t] in after.sessions && after.sessions[after.control[t]] == NEW_SESSION)
    && Room(|after.control|, after.pool) == Admission(pending, setup.maxControl, Room(|w.control|, w.pool))
  }

  /** A round of taking in log connections. */
  ghost predicate LogsAccepted(setup: Setup, w: World, pending: seq<bool>, after: World) {
    && after == w.(logs := after.logs, feeds := after.feeds, pool := after.pool)
    && Kept(w.logs, after.logs) && Kept(w.feeds, after.feeds)
    && (forall t :: t in after.logs && t !in w.logs ==>
          after.logs[t] in after.feeds && after.feeds[after.logs[t]] == NEW_FEED)
    && Room(|after.logs|, after.pool) == Admission(pending, setup.maxLogs, Room(|w.logs|, w.pool))
  }

  /** What an event makes of a control connection, having carried out the requests `done`: all that have
      become complete, unless reading fails, or a response cannot be encoded. */
  ghost predicate SessionStep(codec: Codec, before: Session, after: Session, ev: IoEvent, done: seq<seq<byte>>,
      answers: seq<Response>)
  {
    if !ev.readable then
      done == [] && answers == [] && after == before.Finish(ev.writable, ev.link)
    else
      var read := before.Read(ev.arrivals, ev.end);
      if !read.broken && AllEncode(codec, answers) then
        && done == RequestsIn(read.buf) && |answers| == |done|
        && after == read.Handle(codec, Leftover(read.buf), done, answers).Finish(ev.writable, ev.link)
      else ReadHalf(before, after, codec, ev.arrivals, ev.end, done, answers)
  }

  /** The pool before a connection that was dropped had returned its token. */
  function Undropped(pool: Pool, dropped: bool): Pool {
    if dropped then pool.Take(1) else pool
  }

  /** An event for a control connection: the requests that have become complete are carried out. The
      connection is dropped exactly if it has failed or is over. */
  ghost predicate ControlStep(setup: Setup, w: World, ev: IoEvent, after: World)
    requires ev.token in w.control
  {
    var c := w.control[ev.token];
    && after == w.(apps := after.apps, pool := after.pool, control := after.control, sessions := after.sessions)
    && c in w.sessions && c in after.sessions && after.sessions == w.sessions[c := after.sessions[c]]
    && after.control == (if after.sessions[c].Dropped() then w.control - {ev.token} else w.control)
    && exists done, answers ::
        && |done| == |answers|
        && CarriedOut(setup.codec, setup.names, done, answers, EstateIn(w),
             Estate(after.apps, Undropped(after.pool, after.sessions[c].Dropped())))
        && SessionStep(setup.codec, w.sessions[c], after.sessions[c], ev, done, answers)
  }

  /** What an event makes of a log connection. */
  function FeedAfter(f: Feed, ev: IoEvent, logs: seq<LogView>): Feed {
    var g := if ev.readable then f.ReadHalf(ev.arrivals, ev.end, logs, ev.outlet) else f;
    if g.broken then g else g.Finish(ev.writable, logs, ev.link)
  }

  /** An event for a log connection. It is dropped exactly if it has failed or is over. */
  ghost predicate LogStep(setup: Setup, w: World, ev: IoEvent, after: World)
    requires ev.token in w.logs && |w.apps| == |setup.names| == |setup.rings|
  {
    var c := w.logs[ev.token];
    && c in w.feeds
    && var f := FeedAfter(w.feeds[c], ev, LogsIn(setup, w));
       && after == w.(pool := after.pool, logs := after.logs, feeds := w.feeds[c := f])
       && after.logs == (if f.Dropped() then w.logs - {ev.token} else w.logs)
       && Undropped(after.pool, f.Dropped()) == w.pool
  }

  /** An event for anyone else goes to the apps. */
  ghost predicate AppStep(w: World, ev: IoEvent, after: World) {
    && after == w.(apps := after.apps, pool := w.pool.(out := after.pool.out))
    && AllReacted(w.apps, after.apps, ev.token, ForApp(ev), w.sigints == 0)
  }

  /** Who an event is for, and what it does. */
  ghost predicate EventStep(setup: Setup, w: World, ev: IoEvent, after: World)
    requires |w.apps| == |setup.names| == |setup.rings|
  {
    if ev.token == SIGNALFD_TOKEN then after == w.(sigints := w.sigints + if ev.signal == SIGINT then 1 else 0)
    else if ev.token == UNIX_LISTENER_TOKEN then ControlAccepted(setup, w, ev.pending, after)
    else if ev.token == LOG_LISTENER_TOKEN then LogsAccepted(setup, w, ev.pending, after)
    else if ev.token in w.control then ControlStep(setup, w, ev, after)
    else if ev.token in w.logs then LogStep(setup, w, ev, after)
    else AppStep(w, ev, after)
  }

  // What the phases after the events do

  /** Fresh output is pushed to the followers. */
  ghost predicate PushStep(setup: Setup, w: World, links: Token -> Kernel.Link, after: World)
    requires |w.apps| == |setup.names| == |setup.rings|
  {
    && after == w.(pool := w.pool.(out := after.pool.out), logs := after.logs, feeds := after.feeds)
    && Pushed(w.logs, after.logs, {}, w.feeds, after.feeds, LogsIn(setup, w), links)
  }

  /** Due restarts are fired, or all are cancelled once interrupted. */
  ghost predicate PhaseStep(w: World, after: World, now: Instant) {
    && after == w.(apps := after.apps, pool := after.pool)
    && AllPhased(EstateIn(w), EstateIn(after), now, w.sigints == 0)
  }

  /** Every app has been stopped, whatever came of it. */
  ghost predicate StopAsked(before: seq<AppSnapshot>, after: seq<AppSnapshot>, force: bool) {
    exists results :: AllStopped(before, after, force, results)
  }

  /** Once interrupted, every app is stopped, from the second interrupt on by force. */
  ghost predicate StopStep(w: World, after: World) {
    if w.sigints == 0 then after == w
    else
      && after == w.(apps := after.apps)
      && StopAsked(w.apps, after.apps, w.sigints >= SIGINT_THRESHOLD)
  }

  // Whole iterations

  /** The way through one iteration: the daemon before the first event and after each, then after the
      push and after the restart phase. */
  datatype Course = Course(worlds: seq<World>, pushed: World, phased: World)

  /** Events handled one after the other. */
  ghost predicate Handled(setup: Setup, worlds: seq<World>, events: seq<IoEvent>) {
    && |worlds| == |events| + 1
    && (forall k :: 0 <= k < |worlds| ==> SoundWorld(setup, worlds[k]))
    && forall k :: 0 <= k < |events| ==> EventStep(setup, worlds[k], events[k], worlds[k + 1])
  }

  lemma NothingHandled(setup: Setup, w: World)
    requires SoundWorld(setup, w)
    ensures Handled(setup, [w], [])
  {
  }

  lemma OneMoreHandled(setup: Setup, worlds: seq<World>, events: seq<IoEvent>, ev: IoEvent, after: World)
    requires Handled(setup, worlds, events) && SoundWorld(setup, after)
    requires EventStep(setup, worlds[|events|], ev, after)
    ensures Handled(setup, worlds + [after], events + [ev])
  {
    hide EventStep, SoundWorld;
  }

  /** One iteration of the loop. */
  ghost predicate Turn(setup: Setup, before: World, wake: Wake, course: Course, after: World) {
    && Handled(setup, course.worlds, wake.events) && course.worlds[0] == before
    && PushStep(setup, course.worlds[|wake.events|], wake.links, course.pushed)
    && PhaseStep(course.pushed, course.phased, wake.now)
    && StopStep(course.phased, after)
    && SoundWorld(setup, course.pushed) && SoundWorld(setup, course.phased) && SoundWorld(setup, after)
  }
}
