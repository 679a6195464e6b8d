/** What the daemon's connections can count on, over single events, iterations and whole histories. */
module DaemonService {
  import opened Basics
  import opened Lifecycle
  import opened TokenSlab
  import opened Apps
  import opened Fleet
  import opened LogRing
  import opened LogReader
  import LogWire
  import opened LogIpc
  import opened ControlIpc
  import opened ControlServer
  import opened Framing
  import opened DaemonSteps
  import Kernel
  import opened DaemonRuns

  /** The log server sees the same of apps whose logs are the same. */
  lemma SameLogs(setup: Setup, w: World, after: World)
    requires |w.apps| == |after.apps| == |setup.names| == |setup.rings|
    requires forall i :: 0 <= i < |w.apps| ==> after.apps[i].log == w.apps[i].log
    ensures LogsIn(setup, after) == LogsIn(setup, w)
  {
  }

  lemma PhaseKeepsLogs(setup: Setup, w: World, after: World, now: Instant)
    requires PhaseStep(w, after, now) && |w.apps| == |setup.names| == |setup.rings|
    ensures |after.apps| == |w.apps| && LogsIn(setup, after) == LogsIn(setup, w)
    ensures after.logs == w.logs && after.feeds == w.feeds
  {
    hide PhaseOutcome, AfterPhases, LogsIn;
    forall i | 0 <= i < |w.apps| ensures after.apps[i].log == w.apps[i].log {
      var pool := PhaseAt(w, after, now, i);
      PhaseKeepsOutput(w.apps[i], after.apps[i], now, w.sigints == 0, pool);
    }
    SameLogs(setup, w, after);
  }

  lemma StopKeepsLogs(setup: Setup, w: World, after: World)
    requires StopStep(w, after) && |w.apps| == |setup.names| == |setup.rings|
    ensures |after.apps| == |w.apps| && LogsIn(setup, after) == LogsIn(setup, w)
    ensures after.logs == w.logs && after.feeds == w.feeds
  {
    hide LogsIn;
    if w.sigints > 0 {
      var force := w.sigints >= SIGINT_THRESHOLD;
      var results :| AllStopped(w.apps, after.apps, force, results);
      forall i | 0 <= i < |w.apps| ensures after.apps[i].log == w.apps[i].log {
        assert StopOutcome(w.apps[i], after.apps[i], force, results[i]);
      }
      SameLogs(setup, w, after);
    }
  }

  /** The log connections at the end of an iteration are as the push has left them. */
  lemma PushedLast(setup: Setup, before: World, wake: Wake, course: Course, after: World)
    requires Turn(setup, before, wake, course, after)
    ensures |course.worlds| == |wake.events| + 1
    ensures var w := course.worlds[|wake.events|];
            && |w.apps| == |setup.names| == |setup.rings| == |after.apps|
            && InOrder(w.logs, w.feeds, LogsIn(setup, w)) && LogsIn(setup, after) == LogsIn(setup, w)
            && Pushed(w.logs, after.logs, {}, w.feeds, after.feeds, LogsIn(setup, w), wake.links)
  {
    hide EventStep, Pushed, PhaseStep, StopStep, SoundSnapshot, TokensApart, SessionsInOrder, InOrder, LogsIn;
    var w := course.worlds[|wake.events|];
    assert SoundWorld(setup, w);
    SameLogs(setup, w, course.pushed);
    PhaseKeepsLogs(setup, course.pushed, course.phased, wake.now);
    StopKeepsLogs(setup, course.phased, after);
  }

  /** At the end of an iteration no log connection is stuck. */
  lemma NobodyIsStuck(setup: Setup, before: World, wake: Wake, course: Course, after: World, t: Token)
    requires Turn(setup, before, wake, course, after) && t in after.logs
    ensures |after.apps| == |setup.names| == |setup.rings|
    ensures after.logs[t] in after.feeds && after.feeds[after.logs[t]].Settled(LogsIn(setup, after))
  {
    hide Turn, Feed.Settled, InOrder, Pushed, LogsIn;
    PushedLast(setup, before, wake, course, after);
    var w := course.worlds[|wake.events|];
    PushedSettles(w.logs, after.logs, w.feeds, after.feeds, LogsIn(setup, w), wake.links, t);
  }

  /** At the end of an iteration every follower whose socket took everything has been sent all of its log;
      it is dropped then only if its peer had finished. */
  lemma FollowersAreCaughtUp(setup: Setup, before: World, wake: Wake, course: Course, after: World, t: Token)
    requires Turn(setup, before, wake, course, after)
    requires var w := course.worlds[|wake.events|];
             t in w.logs && w.logs[t] in w.feeds && w.feeds[w.logs[t]].Follows()
    requires wake.links(t).outlet.room.None?
    ensures |after.apps| == |setup.names| == |setup.rings|
    ensures var w := course.worlds[|wake.events|];
            var c := w.logs[t];
            && c in after.feeds && after.feeds[c].CaughtUp(LogsIn(setup, after)) && !after.feeds[c].broken
            && (t !in after.logs ==> w.feeds[c].closing)
  {
    hide Turn, LogsIn, Feed.Orderly, Feed.Finish, Feed.CaughtUp, Feed.Follows, Feed.Over;
    PushedLast(setup, before, wake, course, after);
    var w := course.worlds[|wake.events|];
    PushedInFull(w.feeds[w.logs[t]], LogsIn(setup, w), wake.links(t));
  }

  /** No open connection lacks an interest because the system refused it. */
  ghost predicate NothingRefused(w: World) {
    && (forall t :: t in w.logs ==> w.logs[t] in w.feeds && !w.feeds[w.logs[t]].refused)
    && forall t :: t in w.control ==> w.control[t] in w.sessions && !w.sessions[w.control[t]].refused
  }

  lemma FeedRefuses(f: Feed, ev: IoEvent, logs: seq<LogView>)
    requires f.Orderly(logs) && ev.link.accepts
    ensures var after := FeedAfter(f, ev, logs); after.Dropped() || !after.refused
  {
    hide Feed.Sound, Feed.Orderly, Feed.Served, Feed.Finish, Feed.ReadHalf, Feed.Settled;
    OrderlyIsSound(f, logs);
    if ev.readable {
      ReadHalfServes(f, logs, ev.arrivals, ev.end, ev.outlet);
      var g := f.ReadHalf(ev.arrivals, ev.end, logs, ev.outlet);
      if !g.broken {
        FinishServes(g, ev.writable, logs, ev.link);
      }
    } else {
      FinishSettles(f, ev.writable, logs, ev.link);
    }
  }

  lemma LogEventRefuses(setup: Setup, w: World, ev: IoEvent, after: World)
    requires SoundWorld(setup, w) && ev.token in w.logs && LogStep(setup, w, ev, after)
    requires NothingRefused(w) && ev.link.accepts
    ensures NothingRefused(after)
  {
    hide SoundSnapshot, TokensApart, SessionsInOrder, Feed.Orderly, FeedAfter, Feed.Dropped, LogsIn;
    FeedRefuses(w.feeds[w.logs[ev.token]], ev, LogsIn(setup, w));
  }

  lemma SessionRefuses(codec: Codec, before: Session, after: Session, ev: IoEvent, done: seq<seq<byte>>,
      answers: seq<Response>)
    requires SessionStep(codec, before, after, ev, done, answers) && ev.link.accepts
    ensures after.Dropped() || !after.refused
  {
    hide RequestsIn, Leftover, Flatten, Answered, Session.Finish, Session.Handle;
    FinishRefuses(before, ev.writable, ev.link);
    if ev.readable {
      var read := before.Read(ev.arrivals, ev.end);
      ControlServer.FinishRefuses(read.Handle(codec, Leftover(read.buf), done, answers), ev.writable, ev.link);
    }
  }

  lemma ControlEventRefuses(setup: Setup, w: World, ev: IoEvent, after: World)
    requires SoundWorld(setup, w) && ev.token in w.control && ControlStep(setup, w, ev, after)
    requires NothingRefused(w) && ev.link.accepts
    ensures NothingRefused(after)
  {
    hide SoundSnapshot, TokensApart, InOrder, CarriedOut, SessionStep, Session.Dropped, Session.Orderly;
    var done, answers, pool := ControlCarriesOut(setup, w, ev, after);
    var c := w.control[ev.token];
    SessionRefuses(setup.codec, w.sessions[c], after.sessions[c], ev, done, answers);
  }

  lemma ControlAcceptedRefuses(setup: Setup, w: World, pending: seq<bool>, after: World)
    requires ControlAccepted(setup, w, pending, after) && NothingRefused(w)
    ensures NothingRefused(after)
  {
    hide Admission;
  }

  lemma LogsAcceptedRefuses(setup: Setup, w: World, pending: seq<bool>, after: World)
    requires LogsAccepted(setup, w, pending, after) && NothingRefused(w)
    ensures NothingRefused(after)
  {
    hide Admission;
  }

  lemma SameConnections(w: World, after: World)
    requires after.logs == w.logs && after.feeds == w.feeds
    requires after.control == w.control && after.sessions == w.sessions
    ensures NothingRefused(w) ==> NothingRefused(after)
  {
  }

  lemma EventRefuses(setup: Setup, w: World, ev: IoEvent, after: World)
    requires SoundWorld(setup, w) && EventStep(setup, w, ev, after)
    requires NothingRefused(w) && ev.link.accepts
    ensures NothingRefused(after)
  {
    hide ControlStep, LogStep, AllReacted, ControlAccepted, LogsAccepted, SoundSnapshot, TokensApart, SessionsInOrder,
      InOrder, NothingRefused;
    if ev.token == SIGNALFD_TOKEN {
      SameConnections(w, after);
    } else if ev.token == UNIX_LISTENER_TOKEN {
      ControlAcceptedRefuses(setup, w, ev.pending, after);
    } else if ev.token == LOG_LISTENER_TOKEN {
      LogsAcceptedRefuses(setup, w, ev.pending, after);
    } else if ev.token in w.control {
      ControlEventRefuses(setup, w, ev, after);
    } else if ev.token in w.logs {
      LogEventRefuses(setup, w, ev, after);
    } else {
      SameConnections(w, after);
    }
  }

  /** The system accepts every change of interest asked for in an iteration. */
  ghost predicate Accepting(wake: Wake) {
    && (forall e :: 0 <= e < |wake.events| ==> wake.events[e].link.accepts)
    && forall t :: wake.links(t).accepts
  }

  lemma {:induction false} EventsRefuse(setup: Setup, worlds: seq<World>, events: seq<IoEvent>, k: nat)
    requires Handled(setup, worlds, events) && k < |worlds| && NothingRefused(worlds[0])
    requires forall e :: 0 <= e < |events| ==> events[e].link.accepts
    ensures NothingRefused(worlds[k])
  {
    hide EventStep, SoundWorld, NothingRefused;
    if k > 0 {
      EventsRefuse(setup, worlds, events, k - 1);
      EventRefuses(setup, worlds[k - 1], events[k - 1], worlds[k]);
    }
  }

  /** An iteration in which the system accepts every change of interest leaves nobody without. */
  lemma TurnRefuses(setup: Setup, before: World, wake: Wake, course: Course, after: World)
    requires Turn(setup, before, wake, course, after) && NothingRefused(before) && Accepting(wake)
    ensures NothingRefused(after)
  {
    hide EventStep, SoundWorld, AllPhased, StopAsked, InOrder, LogsIn, Feed.Finish, Feed.Follows;
    var w := course.worlds[|wake.events|];
    EventsRefuse(setup, course.worlds, wake.events, |wake.events|);
    PushedLast(setup, before, wake, course, after);
    forall t | t in after.logs ensures after.logs[t] in after.feeds && !after.feeds[after.logs[t]].refused {
      PushRefuses(w.logs, after.logs, w.feeds, after.feeds, LogsIn(setup, w), wake.links, t);
    }
  }

  lemma {:induction false} HistoryRefuses(setup: Setup, history: seq<World>, wakes: seq<Wake>, laps: seq<Lap>, k: nat)
    requires IsHistory(setup, history, wakes, laps) && k < |history| && NothingRefused(history[0])
    requires forall m :: 0 <= m < k ==> Accepting(wakes[m])
    ensures NothingRefused(history[k])
  {
    hide Turn, WakesInTime, NothingRefused, Accepting;
    if k > 0 {
      HistoryRefuses(setup, history, wakes, laps, k - 1);
      TurnRefuses(setup, history[k - 1], wakes[k - 1], laps[k - 1].course, history[k]);
    }
  }

  lemma CaughtUpIs(setup: Setup, w: World, f: Feed)
    requires |w.apps| == |setup.names| == |setup.rings| && f.CaughtUp(LogsIn(setup, w))
    ensures f.state.Streaming? && f.state.sub.name in setup.names
    ensures f.reader.cursor == |w.apps[IndexOf(setup.names, f.state.sub.name).value].log|
  {
    assert LogNames(LogsIn(setup, w)) == setup.names;
  }

  /** In a history in which the system accepts every change of interest, at the end of an iteration every
      log connection awaits the rest of its request, or waits for a writable event it is registered for,
      or follows and has been sent everything; and a control connection with output pending is registered. */
  lemma EveryoneIsServed(setup: Setup, history: seq<World>, wakes: seq<Wake>, laps: seq<Lap>, k: nat, t: Token)
    requires IsHistory(setup, history, wakes, laps) && 0 < k < |history| && NothingRefused(history[0])
    requires forall m :: 0 <= m < k ==> Accepting(wakes[m])
    ensures |history[k].apps| == |setup.names| == |setup.rings|
    ensures t in history[k].logs ==>
              && history[k].logs[t] in history[k].feeds
              && var f := history[k].feeds[history[k].logs[t]];
                 || (f.state.AwaitingRequest? && (|f.received| < 2 || |f.received| < 2 + f.received[1] as int))
                 || (f.blocked && f.registered)
                 || (f.state.Streaming? && f.state.sub.follow && f.state.sub.name in setup.names
                     && f.reader.cursor == |history[k].apps[IndexOf(setup.names, f.state.sub.name).value].log|)
    ensures t in history[k].control ==>
              && history[k].control[t] in history[k].sessions
              && var s := history[k].sessions[history[k].control[t]];
                 s.registered <==> s.queued != []
  {
    hide WakesInTime, Handled, PushStep, PhaseStep, StopStep, SoundSnapshot, TokensApart, InOrder, Accepting, LogsIn,
      Session.Sound, Feed.Orderly, Feed.CaughtUp;
    HistoryRefuses(setup, history, wakes, laps, k);
    assert Turn(setup, history[k - 1], wakes[k - 1], laps[k - 1].course, history[k]);
    if t in history[k].logs {
      NobodyIsStuck(setup, history[k - 1], wakes[k - 1], laps[k - 1].course, history[k], t);
      var f := history[k].feeds[history[k].logs[t]];
      if f.CaughtUp(LogsIn(setup, history[k])) {
        CaughtUpIs(setup, history[k], f);
      }
    }
  }

  lemma ControlIsNotReserved(w: World, t: Token)
    requires TokensApart(w) && t in w.control
    ensures t >= RESERVED_MIO_TOKENS
  {
    assert t in w.control.Keys;
  }

  lemma LogIsNotReserved(w: World, t: Token)
    requires TokensApart(w) && t in w.logs
    ensures t >= RESERVED_MIO_TOKENS && t !in w.control
  {
    assert t in w.logs.Keys;
  }

  lemma HandleKeeps(s: Session, codec: Codec, rest: seq<byte>, done: seq<seq<byte>>, answers: seq<Response>)
    ensures s.Handle(codec, rest, done, answers).broken == s.broken
  {
  }

  lemma ReadHalfBreaks(before: Session, after: Session, codec: Codec, arrivals: seq<seq<byte>>, end: Kernel.ReadEnd,
      done: seq<seq<byte>>, answers: seq<Response>)
    requires ReadHalf(before, after, codec, arrivals, end, done, answers)
    requires before.Read(arrivals, end).broken || !AllEncode(codec, answers)
    ensures after.broken
  {
  }

  lemma AllSent(s: Session, codec: Codec, link: Kernel.Link)
    requires s.Sound(codec) && !s.broken && link.outlet.room.None?
    ensures var after := s.Finish(true, link);
            && after.sent == Answered(codec, after.responses) && after.queued == []
            && |after.responses| == |after.lines| && AllEncode(codec, after.responses)
            && after.lines == RequestsIn(after.received)
            && (after.Dropped() <==> after.sawEnd || after.lines != [])
  {
    hide RequestsIn, Leftover, Answered;
    AllRepliesSent(s, codec, link);
    FinishSound(s, codec, true, link);
  }

  lemma SessionSent(codec: Codec, before: Session, after: Session, ev: IoEvent, done: seq<seq<byte>>,
      answers: seq<Response>)
    requires before.Orderly(codec) && SessionStep(codec, before, after, ev, done, answers)
    requires ev.writable && ev.link.outlet.room.None?
    ensures after.broken
            || (&& after.sent == Answered(codec, after.responses) && after.queued == []
                && |after.responses| == |after.lines| && AllEncode(codec, after.responses)
                && after.lines == RequestsIn(after.received)
                && (after.Dropped() <==> after.sawEnd || after.lines != []))
  {
    hide RequestsIn, Leftover, Flatten, Answered, Session.Read, Session.Handle, Session.Finish;
    if ev.readable {
      var read := before.Read(ev.arrivals, ev.end);
      if !read.broken && AllEncode(codec, answers) {
        var mid := read.Handle(codec, Leftover(read.buf), done, answers);
        ReadHalfSound(before, mid, codec, ev.arrivals, ev.end, done, answers);
        HandleKeeps(read, codec, Leftover(read.buf), done, answers);
        AllSent(mid, codec, ev.link);
      } else {
        ReadHalfBreaks(before, after, codec, ev.arrivals, ev.end, done, answers);
      }
    } else {
      AllSent(before, codec, ev.link);
    }
  }

  /** An event that says writable for a control connection, whose socket then takes everything, sends every
      reply there is, and unless the connection failed it is dropped as soon as it has had a request or the
      end of its stream. What was sent is one line for each request received: the encoding of its response
      and byte 10. If no encoding holds that byte, the peer can take the replies apart at it. */
  lemma RepliesAreSent(setup: Setup, w: World, ev: IoEvent, after: World)
    requires SoundWorld(setup, w) && EventStep(setup, w, ev, after) && ev.token in w.control
    requires ev.writable && ev.link.outlet.room.None?
    ensures w.control[ev.token] in after.sessions
    ensures var s := after.sessions[w.control[ev.token]];
            s.broken
            || (&& s.queued == [] && s.lines == RequestsIn(s.received) && |s.responses| == |s.lines|
                && (ev.token !in after.control <==> s.sawEnd || s.lines != [])
                && (forall r :: r in s.responses ==> setup.codec.encode(r).Some?)
                && s.sent == Flatten(ReplyLines(setup.codec, s.responses))
                && ((forall r :: r in s.responses ==> 10 !in setup.codec.encode(r).value) ==>
                      CompleteLines(s.sent) == ReplyLines(setup.codec, s.responses) && Leftover(s.sent) == []))
  {
    hide SoundSnapshot, TokensApart, InOrder, CarriedOut, SessionStep, Session.Dropped, Session.Sound, RequestsIn,
      Answered, Flatten, CompleteLines, Leftover, ReplyLines;
    ControlIsNotReserved(w, ev.token);
    var done, answers, pool := ControlCarriesOut(setup, w, ev, after);
    var c := w.control[ev.token];
    SessionSent(setup.codec, w.sessions[c], after.sessions[c], ev, done, answers);
    if !after.sessions[c].broken {
      RepliesAreLines(setup.codec, after.sessions[c].responses);
    }
  }

  /** A request that arrives in full at a log connection whose socket takes everything is answered by the
      end of the event with exactly the bytes the log retains. The connection is then dropped if it was a
      dump, or if nobody has the name it gave, or if its peer has finished; a follower stays. */
  lemma LogRequestIsAnswered(setup: Setup, w: World, ev: IoEvent, after: World)
    requires SoundWorld(setup, w) && EventStep(setup, w, ev, after) && ev.token in w.logs
    requires ev.readable && !ev.end.ReadFailed? && ev.outlet.room.None?
    requires w.feeds[w.logs[ev.token]].state.AwaitingRequest?
    requires LogWire.Complete(w.feeds[w.logs[ev.token]].received + Flatten(ev.arrivals))
    ensures var c, logs := w.logs[ev.token], LogsIn(setup, w);
            var request := LogWire.Take(w.feeds[c].received + Flatten(ev.arrivals)).request;
            var found := FindLog(logs, request.name);
            && c in after.feeds && !after.feeds[c].broken
            && if request.name == [] || found.None? then
                 after.feeds[c].reader == NEW_READER && ev.token !in after.logs
               else
                 var log := logs[found.value];
                 && after.feeds[c].reader.delivered == log.history[StartPos(|log.history|, log.capacity)..]
                 && (ev.token in after.logs <==> request.follow && !ev.end.EndOfStream?)
  {
    hide SoundSnapshot, TokensApart, SessionsInOrder, Feed.Orderly, Feed.Served, Feed.ReadHalf, Feed.Sound, LogsIn,
      LogWire.Take, LogWire.Complete, Flatten;
    LogIsNotReserved(w, ev.token);
    var f, logs := w.feeds[w.logs[ev.token]], LogsIn(setup, w);
    UnblockedRequestIsComplete(f, logs, ev.arrivals, ev.end, ev.outlet);
    ReadHalfServes(f, logs, ev.arrivals, ev.end, ev.outlet);
    var g := f.ReadHalf(ev.arrivals, ev.end, logs, ev.outlet);
    SentAlready(g, logs, ev.link.outlet);
  }

  // A start may orphan a process

  lemma OneRequestCarriedOut(codec: Codec, names: seq<Name>, line: seq<byte>, answers: seq<Response>, before: Estate,
      after: Estate)
    requires |answers| == 1 && CarriedOut(codec, names, [line], answers, before, after)
    ensures |before.apps| == |after.apps| == |names| && Effect(names, codec.decode(line), before, after, answers[0])
  {
    hide Effect;
    var mid := LastCarriedOut(codec, names, [line], answers, before, after);
    assert [line][..0] == [];
  }

  lemma StartBringsUp(names: seq<Name>, name: Name, before: Estate, after: Estate, response: Response, i: nat)
    requires |before.apps| == |after.apps| == |names| && Effect(names, Some(Start(name)), before, after, response)
    requires IndexOf(names, name) == Option.Some(i)
    requires before.apps[i].view.state.Stopped? && Unhindered(NextLaunch(before.apps[i]))
    ensures after.apps[i].view.state.Running? <==> before.pool.Has(3)
    ensures after.apps[i].spawned == before.apps[i].spawned + 1
    ensures after.apps[i].orphaned == before.apps[i].orphaned + if before.pool.Has(3) then 0 else 1
  {
  }

  lemma OneRequestDone(setup: Setup, w: World, ev: IoEvent, after: Session, line: seq<byte>, done: seq<seq<byte>>,
      answers: seq<Response>)
    requires ev.token in w.control && w.control[ev.token] in w.sessions
    requires SessionStep(setup.codec, w.sessions[w.control[ev.token]], after, ev, done, answers)
    requires !ev.end.ReadFailed? && !w.sessions[w.control[ev.token]].broken && NewRequests(w, ev) == [line]
    requires |done| == |answers|
    ensures done == [line]
  {
    hide RequestsIn, Leftover, Flatten, Answered, Session.Finish, Session.Handle;
    OnlyNewRequests(setup, w, ev, after, done, answers);
    assert done == NewRequests(w, ev)[..|done|];
  }

  /** A request to start an app that is down, whose launch no call fails in, brings it up if and only if
      three tokens are left; otherwise the process that was spawned for it is orphaned. */
  lemma StartNeedsThreeTokens(setup: Setup, w: World, ev: IoEvent, after: World, line: seq<byte>, name: Name, i: nat)
    requires SoundWorld(setup, w) && EventStep(setup, w, ev, after) && ev.token in w.control
    requires !ev.end.ReadFailed? && NewRequests(w, ev) == [line]
    requires setup.codec.decode(line) == Some(Start(name)) && IndexOf(setup.names, name) == Option.Some(i)
    requires w.apps[i].view.state.Stopped? && Unhindered(NextLaunch(w.apps[i]))
    ensures |after.apps| == |w.apps|
    ensures after.apps[i].view.state.Running? <==> w.pool.Has(3)
    ensures after.apps[i].spawned == w.apps[i].spawned + 1
    ensures after.apps[i].orphaned == w.apps[i].orphaned + if w.pool.Has(3) then 0 else 1
  {
    hide SoundSnapshot, TokensApart, InOrder, CarriedOut, SessionStep, Session.Sound, ControlStep, NewRequests,
      Effect;
    ControlIsNotReserved(w, ev.token);
    var done, answers, pool := ControlCarriesOut(setup, w, ev, after);
    OneRequestDone(setup, w, ev, after.sessions[w.control[ev.token]], line, done, answers);
    var before, now := EstateIn(w), Estate(after.apps, pool);
    OneRequestCarriedOut(setup.codec, setup.names, line, answers, before, now);
    StartBringsUp(setup.names, name, before, now, answers[0], i);
  }

  /** It does come to that: a daemon with three tokens and one app that is down, once it has taken in a
      connection over which the app is asked to be started, has an orphan. */
  lemma OrphansAreReachable(setup: Setup, w: World, accept: IoEvent, connected: World, ev: IoEvent, after: World,
      line: seq<byte>, name: Name)
    requires w.pool == Pool(3, 0, Losses(0, 0)) && |w.apps| == 1 && setup.names == [name] && setup.maxControl > 0
    requires w.control == map[] && w.apps[0].view.state.Stopped? && w.apps[0].orphaned == 0
    requires Unhindered(NextLaunch(w.apps[0]))
    requires SoundWorld(setup, w) && SoundWorld(setup, connected)
    requires accept.token == UNIX_LISTENER_TOKEN && accept.pending == [true]
    requires EventStep(setup, w, accept, connected) && EventStep(setup, connected, ev, after)
    requires ev.token in connected.control && !ev.end.ReadFailed? && NewRequests(connected, ev) == [line]
    requires setup.codec.decode(line) == Some(Start(name))
    ensures |after.apps| == 1 && after.apps[0].orphaned == 1 && after.apps[0].view.state.Stopped?
  {
    hide SoundWorld, Admission, NewRequests, ControlStep, LogStep, AppStep;
    assert |w.control| == 0;
    AdmissionOfOne(true, setup.maxControl, Room(0, w.pool));
    IndexIs(setup.names, name, 0);
    StartNeedsThreeTokens(setup, connected, ev, after, line, name, 0);
  }
}
