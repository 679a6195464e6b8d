/** What the requests of the control socket come to, written out in states, bytes and numbers: each with what
    it does to every app, and its reply. */
module DaemonRequests {
  import opened Basics
  import opened Lifecycle
  import opened TokenSlab
  import opened Apps
  import opened Fleet
  import opened Framing
  import opened LogIpc
  import opened ControlIpc
  import opened ControlServer
  import opened DaemonSteps
  import opened DaemonRuns
  import opened DaemonService
  import opened DaemonEvents
  import Kernel

  // Lines and replies

  /** An event that brings some lines, all of them, on a control connection with nothing else buffered. */
  ghost predicate BringsLines(w: World, ev: IoEvent, lines: seq<seq<byte>>) {
    && ev.token in w.control && w.control[ev.token] in w.sessions && w.sessions[w.control[ev.token]].buf == []
    && ev.readable && !ev.end.ReadFailed? && Flatten(ev.arrivals) == Flatten(Ended(lines)) && lines != []
    && forall k :: 0 <= k < |lines| ==> IsBare(lines[k])
  }

  lemma LinesAreNewRequests(w: World, ev: IoEvent, lines: seq<seq<byte>>)
    requires BringsLines(w, ev, lines)
    ensures NewRequests(w, ev) == lines
    ensures Leftover(w.sessions[w.control[ev.token]].Read(ev.arrivals, ev.end).buf) == []
  {
    hide Flatten, RequestsIn, Leftover, Ended;
    LinesAreRequests(lines);
    assert [] + Flatten(ev.arrivals) == Flatten(ev.arrivals);
  }

  /** The end of an event that says writable sends the beginning of the queue, as much of it as the socket
      takes; the rest stays queued, and if the socket breaks over it the connection has failed. */
  lemma QueueGoesOut(s: Session, writable: bool, link: Kernel.Link)
    ensures var after, n := s.Finish(writable, link), if writable then Takable(|s.queued|, link.outlet) else 0;
            && after == s.(sent := s.sent + s.queued[..n], queued := s.queued[n..], broken := after.broken,
                 registered := after.registered, refused := after.refused)
            && (after.broken <==> s.broken || (writable && n < |s.queued| && link.outlet.breaks))
  {
    assert s.sent + s.queued[..0] == s.sent;
  }

  /** Requests have been carried out, up to one whose response cannot be encoded: the replies are queued, and
      go out as far as the socket takes them. */
  lemma LinesHandled(codec: Codec, before: Session, after: Session, ev: IoEvent, lines: seq<seq<byte>>,
      done: seq<seq<byte>>, answers: seq<Response>)
    requires SessionStep(codec, before, after, ev, done, answers) && |answers| == |done|
    requires ev.readable && !ev.end.ReadFailed? && !before.broken
    requires lines == RequestsIn(before.Read(ev.arrivals, ev.end).buf)
    ensures done <= lines
    ensures if forall r :: r in answers ==> codec.encode(r).Some? then
              var queue := before.queued + Flatten(ReplyLines(codec, answers));
              var n := if ev.writable then Takable(|queue|, ev.link.outlet) else 0;
              && done == lines && after.lines == before.lines + lines && after.responses == before.responses + answers
              && after.sent == before.sent + queue[..n] && after.queued == queue[n..]
              && (lines != [] ==> after.closing)
              && (after.broken <==> ev.writable && n < |queue| && ev.link.outlet.breaks)
            else
              && after.broken && codec.encode(answers[|answers| - 1]).None?
              && forall k :: 0 <= k < |answers| - 1 ==> codec.encode(answers[k]).Some?
  {
    hide Flatten, RequestsIn, Leftover, Answered, Session.Finish, Takable, ReplyLines;
    var read := before.Read(ev.arrivals, ev.end);
    if AllEncode(codec, answers) {
      RepliesAreLines(codec, answers);
      QueueGoesOut(read.Handle(codec, Leftover(read.buf), done, answers), ev.writable, ev.link);
    } else {
      var n := |answers| - 1;
      forall k | 0 <= k < n ensures codec.encode(answers[k]).Some? {
        assert answers[..n][k] in answers[..n];
      }
    }
  }

  /** An event on the token of a control connection is for that connection, which is in order. */
  lemma ControlIsReached(setup: Setup, w: World, ev: IoEvent, after: World)
    requires SoundWorld(setup, w) && EventStep(setup, w, ev, after) && ev.token in w.control
    ensures ControlStep(setup, w, ev, after) && |w.apps| == |setup.names|
    ensures w.control[ev.token] in w.sessions && !w.sessions[w.control[ev.token]].broken
    ensures w.control[ev.token] in after.sessions
  {
    hide SoundSnapshot, TokensApart, InOrder, CarriedOut, SessionStep, Session.Sound;
    ControlIsNotReserved(w, ev.token);
  }

  /** Several requests are carried out one after the other, in the order of their lines: there are estates
      in between, and each request leads from one to the next. */
  lemma {:induction false} RequestsFollowEachOther(codec: Codec, names: seq<Name>, lines: seq<seq<byte>>,
      responses: seq<Response>, before: Estate, after: Estate)
    returns (estates: seq<Estate>)
    requires |lines| == |responses| && CarriedOut(codec, names, lines, responses, before, after)
    ensures |estates| == |lines| + 1 && estates[0] == before && estates[|lines|] == after
    ensures forall k :: 0 <= k < |estates| ==> |estates[k].apps| == |names|
    ensures forall k :: 0 <= k < |lines| ==>
              Effect(names, codec.decode(lines[k]), estates[k], estates[k + 1], responses[k])
    decreases |lines|
  {
    hide Effect;
    if lines == [] {
      estates := [before];
    } else {
      var n := |lines| - 1;
      var mid := LastCarriedOut(codec, names, lines, responses, before, after);
      var others := RequestsFollowEachOther(codec, names, lines[..n], responses[..n], before, mid);
      estates := others + [after];
    }
  }

  lemma NewRequestsAre(w: World, ev: IoEvent)
    requires ev.readable && ev.token in w.control && w.control[ev.token] in w.sessions
    ensures NewRequests(w, ev) == RequestsIn(w.sessions[w.control[ev.token]].Read(ev.arrivals, ev.end).buf)
  {
  }

  /** The lines that come in on a control connection are carried out in order, each on what the one before has
      left, and their replies go out after what was queued, as far as the socket takes them. If a response
      cannot be encoded the connection has failed, and the lines after that one are not carried out. It is
      dropped if it has failed, or once all has gone out. */
  lemma LinesAreAnswered(setup: Setup, w: World, ev: IoEvent, after: World, lines: seq<seq<byte>>)
    returns (responses: seq<Response>, estates: seq<Estate>)
    requires SoundWorld(setup, w) && EventStep(setup, w, ev, after) && BringsLines(w, ev, lines)
    ensures |responses| <= |lines| && |estates| == |responses| + 1 && estates[0] == EstateIn(w)
    ensures var dropped := if ev.token in after.control then 0 else 1;
            estates[|responses|] == Estate(after.apps, after.pool.(out := after.pool.out + dropped))
    ensures forall k :: 0 <= k < |estates| ==> |estates[k].apps| == |setup.names|
    ensures forall k :: 0 <= k < |responses| ==>
              Effect(setup.names, setup.codec.decode(lines[k]), estates[k], estates[k + 1], responses[k])
    ensures w.control[ev.token] in after.sessions
    ensures var s, t := w.sessions[w.control[ev.token]], after.sessions[w.control[ev.token]];
            && (ev.token !in after.control <==> t.broken || t.queued == [])
            && if forall r :: r in responses ==> setup.codec.encode(r).Some? then
                 var queue := s.queued + Flatten(ReplyLines(setup.codec, responses));
                 var n := if ev.writable then Takable(|queue|, ev.link.outlet) else 0;
                 && |responses| == |lines| && t.lines == s.lines + lines && t.responses == s.responses + responses
                 && t.sent == s.sent + queue[..n] && t.queued == queue[n..]
                 && (t.broken <==> ev.writable && n < |queue| && ev.link.outlet.breaks)
               else
                 && t.broken && setup.codec.encode(responses[|responses| - 1]).None?
                 && forall k :: 0 <= k < |responses| - 1 ==> setup.codec.encode(responses[k]).Some?
  {
    hide SoundWorld, EventStep, ControlStep, CarriedOut, SessionStep, NewRequests, Effect, Flatten, Takable, Ended,
      ReplyLines, RequestsIn;
    ControlIsReached(setup, w, ev, after);
    LinesAreNewRequests(w, ev, lines);
    var done, answers, pool := ControlCarriesOut(setup, w, ev, after);
    var s, t := w.sessions[w.control[ev.token]], after.sessions[w.control[ev.token]];
    NewRequestsAre(w, ev);
    LinesHandled(setup.codec, s, t, ev, lines, done, answers);
    estates := RequestsFollowEachOther(setup.codec, setup.names, done, answers, EstateIn(w), Estate(after.apps, pool));
    responses := answers;
  }

  lemma OneReplyLine(codec: Codec, response: Response)
    requires codec.encode(response).Some?
    ensures Flatten(ReplyLines(codec, [response])) == codec.encode(response).value + [10]
  {
    var line := codec.encode(response).value + [10];
    assert ReplyLines(codec, [response]) == [] + [line];
    NothingYet<byte>();
    FlattenSnoc([], line);
    assert [] + line == line;
  }

  /** The same for a single line. */
  lemma LineIsAnswered(setup: Setup, w: World, ev: IoEvent, after: World, line: seq<byte>)
    returns (response: Response, pool: Pool)
    requires SoundWorld(setup, w) && EventStep(setup, w, ev, after) && BringsLines(w, ev, [line])
    ensures |after.apps| == |w.apps| == |setup.names|
    ensures Effect(setup.names, setup.codec.decode(line), EstateIn(w), Estate(after.apps, pool), response)
    ensures pool == after.pool.(out := after.pool.out + if ev.token in after.control then 0 else 1)
    ensures w.control[ev.token] in after.sessions
    ensures var s, t := w.sessions[w.control[ev.token]], after.sessions[w.control[ev.token]];
            && (setup.codec.encode(response).None? ==> t.broken)
            && (setup.codec.encode(response).Some? ==> t.responses == s.responses + [response])
            && (setup.codec.encode(response).Some? && s.queued == [] && ev.writable && ev.link.outlet.room.None? ==>
                  && t.sent == s.sent + (setup.codec.encode(response).value + [10])
                  && ev.token !in after.control && !t.broken)
  {
    hide SoundWorld, EventStep, Effect, Takable, Flatten, ReplyLines, Ended, IsBare;
    var responses, estates := LinesAreAnswered(setup, w, ev, after, [line]);
    assert |responses| == 1;
    response, pool := responses[0], estates[1].pool;
    assert responses == [response] && responses[0] in responses;
    if setup.codec.encode(response).Some? {
      OneReplyLine(setup.codec, response);
    }
  }

  lemma NothingHandledYet(codec: Codec, before: Session, after: Session, ev: IoEvent, done: seq<seq<byte>>,
      answers: seq<Response>)
    requires SessionStep(codec, before, after, ev, done, answers) && |done| == |answers|
    requires ev.readable && RequestsIn(before.buf + Flatten(ev.arrivals)) == []
    requires Leftover(before.buf + Flatten(ev.arrivals)) == before.buf + Flatten(ev.arrivals)
    ensures done == [] && answers == []
    ensures after.buf == before.buf + Flatten(ev.arrivals) && after.responses == before.responses
    ensures ev.end.ReadFailed? ==> after.broken
    ensures !ev.end.ReadFailed? && !before.broken ==>
              var n := if ev.writable then Takable(|before.queued|, ev.link.outlet) else 0;
              && after.sent == before.sent + before.queued[..n] && after.queued == before.queued[n..]
              && (after.closing <==> before.closing || ev.end.EndOfStream?)
              && (after.broken <==> ev.writable && n < |before.queued| && ev.link.outlet.breaks)
  {
    hide Flatten, RequestsIn, Leftover, Answered, Session.Finish, Takable;
    var read := before.Read(ev.arrivals, ev.end);
    if !ev.end.ReadFailed? && !before.broken {
      AnsweredNothing(codec);
      assert read.queued + [] == read.queued;
      QueueGoesOut(read.Handle(codec, Leftover(read.buf), [], []), ev.writable, ev.link);
    }
  }

  lemma NothingDone(codec: Codec, names: seq<Name>, before: Estate, after: Estate)
    requires CarriedOut(codec, names, [], [], before, after)
    ensures after == before
  {
  }

  /** What comes in without a newline waits in the buffer, and nothing is carried out. */
  lemma PartOfALineWaits(setup: Setup, w: World, ev: IoEvent, after: World)
    requires SoundWorld(setup, w) && EventStep(setup, w, ev, after) && ev.token in w.control
    requires w.control[ev.token] in w.sessions
    requires ev.readable && 10 !in w.sessions[w.control[ev.token]].buf + Flatten(ev.arrivals)
    ensures after.apps == w.apps && w.control[ev.token] in after.sessions
    ensures var s, t := w.sessions[w.control[ev.token]], after.sessions[w.control[ev.token]];
            t.buf == s.buf + Flatten(ev.arrivals) && t.responses == s.responses
  {
    hide SoundWorld, EventStep, ControlStep, SessionStep, CarriedOut, Flatten, RequestsIn;
    ControlIsReached(setup, w, ev, after);
    NoLineLeft(w.sessions[w.control[ev.token]].buf + Flatten(ev.arrivals));
    var done, answers, pool := ControlCarriesOut(setup, w, ev, after);
    var c := w.control[ev.token];
    NothingHandledYet(setup.codec, w.sessions[c], after.sessions[c], ev, done, answers);
    NothingDone(setup.codec, setup.names, EstateIn(w), Estate(after.apps, pool));
  }

  /** A control connection is dropped when its peer has finished, as soon as all replies are sent, and when
      reading from it fails. */
  lemma ControlPeerLeaves(setup: Setup, w: World, ev: IoEvent, after: World)
    requires SoundWorld(setup, w) && EventStep(setup, w, ev, after) && ev.token in w.control
    requires w.control[ev.token] in w.sessions && ev.readable && !ev.end.WouldBlock?
    requires 10 !in w.sessions[w.control[ev.token]].buf + Flatten(ev.arrivals)
    requires ev.end.ReadFailed? || w.sessions[w.control[ev.token]].queued == []
    ensures ev.token !in after.control
  {
    hide SoundWorld, EventStep, ControlStep, SessionStep, CarriedOut, Flatten, RequestsIn, Takable;
    ControlIsReached(setup, w, ev, after);
    NoLineLeft(w.sessions[w.control[ev.token]].buf + Flatten(ev.arrivals));
    var done, answers, pool := ControlCarriesOut(setup, w, ev, after);
    var c := w.control[ev.token];
    NothingHandledYet(setup.codec, w.sessions[c], after.sessions[c], ev, done, answers);
  }

  /** Between events, a connection is due for closing exactly if replies to it are queued. */
  lemma ClosesAfterReplies(setup: Setup, w: World, t: Token)
    requires SoundWorld(setup, w) && t in w.control
    ensures w.control[t] in w.sessions && var s := w.sessions[w.control[t]]; s.closing <==> s.queued != []
  {
    hide SoundSnapshot, TokensApart, InOrder, RequestsIn, Leftover;
    assert w.sessions[w.control[t]].Orderly(setup.codec);
    AnsweredNothing(setup.codec);
  }

  /** A writable event sends the beginning of what is queued, as much as the socket takes. Once everything has
      been sent the connection is dropped, and it is when the socket breaks. */
  lemma QueueIsSentOn(setup: Setup, w: World, ev: IoEvent, after: World)
    requires SoundWorld(setup, w) && EventStep(setup, w, ev, after) && ev.token in w.control
    requires w.control[ev.token] in w.sessions && !ev.readable && ev.writable
    ensures after.apps == w.apps && w.control[ev.token] in after.sessions
    ensures var s, t := w.sessions[w.control[ev.token]], after.sessions[w.control[ev.token]];
            var n := Takable(|s.queued|, ev.link.outlet);
            && t.sent == s.sent + s.queued[..n] && t.queued == s.queued[n..]
            && (ev.token !in after.control <==>
                  if n < |s.queued| then ev.link.outlet.breaks else s.queued != [])
  {
    hide SoundWorld, EventStep, ControlStep, CarriedOut, Flatten, RequestsIn, Session.Finish, Takable;
    ControlIsReached(setup, w, ev, after);
    var s := w.sessions[w.control[ev.token]];
    var done, answers, pool := ControlCarriesOut(setup, w, ev, after);
    QueueGoesOut(s, true, ev.link);
    NothingDone(setup.codec, setup.names, EstateIn(w), Estate(after.apps, pool));
    ClosesAfterReplies(setup, w, ev.token);
  }

  // What requests do

  /** What a stop leaves of an app. A running one has been sent exactly one signal, SIGKILL by force and
      SIGTERM otherwise, and is not to be restarted; a pending restart is given up; an app that is down is
      sent nothing and stays as it is. */
  ghost predicate StopLeaves(a: AppSnapshot, force: bool, b: AppSnapshot) {
    match a.view.state
    case Running(_) =>
      b == a.(view := a.view.(stopRequested := true), signals := a.signals + [if force then SigKill else SigTerm])
    case Stopped(Some(LastExecutionInfo(cause, Some(_)))) =>
      b == a.(view := a.view.(stopRequested := true, state := State.Stopped(Some(LastExecutionInfo(cause, None)))))
    case Stopped(_) => b == a
  }

  lemma StopInStates(before: AppSnapshot, after: AppSnapshot, force: bool, r: Apps.Result<bool>)
    requires StopOutcome(before, after, force, r)
    ensures StopLeaves(before, force, after)
    ensures match before.view.state
            case Running(_) => r == if before.host.delivers(|before.signals|) then Ok(true) else Err(RuntimeError)
            case Stopped(last) => r == Ok(last.Some? && last.value.restartDeadline.Some?)
  {
    assert before.signals + [] == before.signals;
  }

  /** How many tokens a launch takes for good, by those who come up or by leaking: one for each descriptor
      that can be registered and the one that cannot, up to three, as long as there are any. */
  function TokensTaken(launch: Kernel.Launch, capacity: nat, out: nat): (n: nat)
    ensures n <= 3 && (launch.forks && launch.opens && launch.registered >= 3 && out + 3 <= capacity ==> n == 3)
  {
    if !launch.forks || !launch.opens || capacity <= out then 0
    else if launch.registered < 3 && launch.registered + 1 <= capacity - out then launch.registered + 1
    else if capacity - out < 3 then capacity - out
    else 3
  }

  lemma LaunchTakes(launch: Kernel.Launch, pool: Pool)
    ensures AfterLaunch(launch, pool).out == pool.out + TokensTaken(launch, pool.capacity, pool.out)
    ensures AfterLaunch(launch, pool).capacity == pool.capacity
  {
  }

  /** What a start leaves of an app while `out` of the tokens are out. One that runs is left alone. Otherwise
      the launch goes through exactly if the process is forked, its pidfd can be opened, all three
      descriptors can be registered, and three tokens are left; then the app runs since the launch began,
      with no failures and free to be restarted. If not, the app is as it was, and a process that was forked
      is an orphan. */
  ghost predicate StartLeaves(a: AppSnapshot, capacity: nat, out: nat, b: AppSnapshot) {
    var launch := a.host.launches(a.launches);
    var forked := if launch.forks then 1 else 0;
    if a.view.state.Running? then b == a
    else if launch.forks && launch.opens && launch.registered >= 3 && out + 3 <= capacity then
      && b.view.state.Running? && b.view.state.rt.startedAt == launch.startedAt
      && b == a.(launches := a.launches + 1, spawned := a.spawned + 1,
           view := a.view.(state := b.view.state, consecutiveFailures := 0, stopRequested := false,
             created := a.view.created + 1))
    else b == a.(launches := a.launches + 1, spawned := a.spawned + forked, orphaned := a.orphaned + forked)
  }

  lemma StartInStates(before: AppSnapshot, after: AppSnapshot, pool: Pool, r: Apps.Result<()>)
    requires StartOutcome(before, after, pool, r)
    ensures StartLeaves(before, pool.capacity, pool.out, after)
    ensures r.Ok? <==> before.view.state.Stopped? && after.view.state.Running?
  {
  }

  /** The tokens out once all of some apps have been started, in order. */
  function OutWhenStarted(apps: seq<AppSnapshot>, capacity: nat, out: nat): nat {
    if apps == [] then out
    else
      var last, others := apps[|apps| - 1], OutWhenStarted(apps[..|apps| - 1], capacity, out);
      if last.view.state.Running? then others
      else others + TokensTaken(last.host.launches(last.launches), capacity, others)
  }

  lemma {:induction false} StartsTake(apps: seq<AppSnapshot>, pool: Pool)
    ensures AfterStarts(apps, pool).out == OutWhenStarted(apps, pool.capacity, pool.out)
    ensures AfterStarts(apps, pool).capacity == pool.capacity
  {
    hide AfterLaunch, TokensTaken;
    if apps != [] {
      var init, last := apps[..|apps| - 1], apps[|apps| - 1];
      StartsTake(init, pool);
      LaunchTakes(last.host.launches(last.launches), AfterStarts(init, pool));
    }
  }

  lemma StopEffectOnName(names: seq<Name>, name: Name, force: bool, before: Estate, after: Estate, response: Response,
      i: nat)
    returns (r: Apps.Result<bool>)
    requires |before.apps| == |after.apps| == |names| && Effect(names, Some(Stop(name, force)), before, after, response)
    requires i < |names| && names[i] == name && name !in names[..i]
    ensures after == before.(apps := before.apps[i := after.apps[i]])
    ensures StopOutcome(before.apps[i], after.apps[i], force, r)
    ensures response == if r.Ok? then Response.Stopped(name, r.value) else Error
  {
    hide StopOutcome;
    IndexIs(names, name, i);
    r :| StopOutcome(before.apps[i], after.apps[i], force, r)
         && response == if r.Ok? then Response.Stopped(name, r.value) else Error;
  }

  /** A request to stop the app at position `i`, without force or with it. A running app is sent exactly one
      SIGTERM, or SIGKILL, and will not be restarted; the reply says that it was running, unless the signal
      could not be delivered. A pending restart is given up, and the reply says the same. An app that is
      down is sent nothing and stays as it is, and the reply says so. No other app is touched. */
  lemma StopIsCarriedOut(setup: Setup, w: World, ev: IoEvent, after: World, line: seq<byte>, name: Name, force: bool,
      i: nat)
    returns (response: Response)
    requires SoundWorld(setup, w) && EventStep(setup, w, ev, after) && BringsLines(w, ev, [line])
    requires setup.codec.decode(line) == Some(Stop(name, force))
    requires i < |setup.names| && setup.names[i] == name && name !in setup.names[..i]
    ensures |after.apps| == |w.apps| == |setup.names| && after.apps == w.apps[i := after.apps[i]]
    ensures StopLeaves(w.apps[i], force, after.apps[i])
    ensures match w.apps[i].view.state
            case Running(_) =>
              response == if w.apps[i].host.delivers(|w.apps[i].signals|) then Response.Stopped(name, true) else Error
            case Stopped(last) => response == Response.Stopped(name, last.Some? && last.value.restartDeadline.Some?)
    ensures w.control[ev.token] in after.sessions
    ensures var s, t := w.sessions[w.control[ev.token]], after.sessions[w.control[ev.token]];
            t.broken || t.responses == s.responses + [response]
  {
    hide SoundWorld, EventStep, Effect, StopOutcome, StopLeaves, Flatten, Takable, BringsLines;
    var pool;
    response, pool := LineIsAnswered(setup, w, ev, after, line);
    var r := StopEffectOnName(setup.names, name, force, EstateIn(w), Estate(after.apps, pool), response, i);
    StopInStates(w.apps[i], after.apps[i], force, r);
  }

  lemma StartEffectOnName(names: seq<Name>, name: Name, before: Estate, after: Estate, response: Response, i: nat)
    returns (r: Apps.Result<()>)
    requires |before.apps| == |after.apps| == |names| && Effect(names, Some(Start(name)), before, after, response)
    requires i < |names| && names[i] == name && name !in names[..i]
    ensures after.apps == before.apps[i := after.apps[i]] && after.pool == AfterStart(before.apps[i], before.pool)
    ensures StartOutcome(before.apps[i], after.apps[i], before.pool, r)
    ensures response == if r.Ok? then Started(name) else Error
  {
    hide StartOutcome, AfterStart;
    IndexIs(names, name, i);
    r :| StartOutcome(before.apps[i], after.apps[i], before.pool, r)
         && response == if r.Ok? then Started(name) else Error;
  }

  /** A request to start the app at position `i`. One that runs is left alone. Otherwise it comes up, free to
      be restarted and without failures, if and only if no call of its launch fails and three tokens are
      left; if it does not come up its lifecycle is as it was, and the process that was forked for it, if
      any, is an orphan. No other app is touched. */
  lemma StartIsCarriedOut(setup: Setup, w: World, ev: IoEvent, after: World, line: seq<byte>, name: Name, i: nat)
    returns (response: Response)
    requires SoundWorld(setup, w) && EventStep(setup, w, ev, after) && BringsLines(w, ev, [line])
    requires setup.codec.decode(line) == Some(Start(name))
    requires i < |setup.names| && setup.names[i] == name && name !in setup.names[..i]
    ensures |after.apps| == |w.apps| == |setup.names| && after.apps == w.apps[i := after.apps[i]]
    ensures StartLeaves(w.apps[i], w.pool.capacity, w.pool.out, after.apps[i])
    ensures response == if w.apps[i].view.state.Stopped? && after.apps[i].view.state.Running? then Started(name)
                        else Error
    ensures after.pool.out + (if ev.token in after.control then 0 else 1)
            == OutWhenStarted([w.apps[i]], w.pool.capacity, w.pool.out)
    ensures w.control[ev.token] in after.sessions
    ensures var s, t := w.sessions[w.control[ev.token]], after.sessions[w.control[ev.token]];
            t.broken || t.responses == s.responses + [response]
  {
    hide SoundWorld, EventStep, Effect, StartOutcome, StartLeaves, Flatten, Takable, BringsLines, AfterLaunch,
      TokensTaken;
    var pool;
    response, pool := LineIsAnswered(setup, w, ev, after, line);
    var r := StartEffectOnName(setup.names, name, EstateIn(w), Estate(after.apps, pool), response, i);
    StartInStates(w.apps[i], after.apps[i], w.pool, r);
    LaunchTakes(w.apps[i].host.launches(w.apps[i].launches), w.pool);
    assert [w.apps[i]][..0] == [];
  }

  lemma StopAllEffect(names: seq<Name>, force: bool, before: Estate, after: Estate, response: Response)
    returns (results: seq<Apps.Result<bool>>)
    requires |before.apps| == |after.apps| == |names| && Effect(names, Some(StopAll(force)), before, after, response)
    ensures AllStopped(before.apps, after.apps, force, results) && |results| == |names|
    ensures response == StoppedAll(NamesOf(names, results, true), NamesOf(names, results, false))
  {
    hide StopOutcome;
    results :| AllStopped(before.apps, after.apps, force, results)
               && response == StoppedAll(NamesOf(names, results, true), NamesOf(names, results, false));
  }

  /** A request to stop all apps does to each what a request to stop it does. The reply lists as failed the
      names of those running apps whose signal could not be delivered, and all others as stopped. */
  lemma StopAllIsCarriedOut(setup: Setup, w: World, ev: IoEvent, after: World, line: seq<byte>, force: bool)
    returns (response: Response)
    requires SoundWorld(setup, w) && EventStep(setup, w, ev, after) && BringsLines(w, ev, [line])
    requires setup.codec.decode(line) == Some(StopAll(force))
    ensures |after.apps| == |w.apps| == |setup.names|
    ensures forall i :: 0 <= i < |w.apps| ==> StopLeaves(w.apps[i], force, after.apps[i])
    ensures response.StoppedAll? && |response.stopped| + |response.failed| == |setup.names|
    ensures forall name :: name in response.failed <==>
              exists i :: 0 <= i < |w.apps| && setup.names[i] == name && w.apps[i].view.state.Running?
                          && !w.apps[i].host.delivers(|w.apps[i].signals|)
    ensures forall name :: name in response.stopped <==>
              exists i :: 0 <= i < |w.apps| && setup.names[i] == name
                          && (w.apps[i].view.state.Running? ==> w.apps[i].host.delivers(|w.apps[i].signals|))
    ensures w.control[ev.token] in after.sessions
    ensures var s, t := w.sessions[w.control[ev.token]], after.sessions[w.control[ev.token]];
            t.broken || t.responses == s.responses + [response]
  {
    hide SoundWorld, EventStep, Effect, StopOutcome, StopLeaves, Flatten, Takable, BringsLines, NamesOf;
    var pool;
    response, pool := LineIsAnswered(setup, w, ev, after, line);
    var results := StopAllEffect(setup.names, force, EstateIn(w), Estate(after.apps, pool), response);
    NamesSorted(setup.names, results);
    forall i | 0 <= i < |w.apps|
      ensures results[i].Ok?
              <==> (w.apps[i].view.state.Running? ==> w.apps[i].host.delivers(|w.apps[i].signals|))
      ensures StopLeaves(w.apps[i], force, after.apps[i])
    {
      StopInStates(w.apps[i], after.apps[i], force, results[i]);
    }
  }

  lemma StartAllEffect(names: seq<Name>, before: Estate, after: Estate, response: Response)
    returns (results: seq<Apps.Result<()>>)
    requires |before.apps| == |after.apps| == |names| && Effect(names, Some(StartAll), before, after, response)
    ensures AllStarted(before, after, results) && |results| == |names|
    ensures response == StartedAll(NamesOf(names, results, true), NamesOf(names, results, false))
  {
    hide StartOutcome, AfterStarts;
    results :| AllStarted(before, after, results)
               && response == StartedAll(NamesOf(names, results, true), NamesOf(names, results, false));
  }

  /** A request to start all apps starts those that are down, in order, each with the tokens those before it
      have left. The reply lists as started the names of those that came up by it, and as failed all others. */
  lemma StartAllIsCarriedOut(setup: Setup, w: World, ev: IoEvent, after: World, line: seq<byte>)
    returns (response: Response)
    requires SoundWorld(setup, w) && EventStep(setup, w, ev, after) && BringsLines(w, ev, [line])
    requires setup.codec.decode(line) == Some(StartAll)
    ensures |after.apps| == |w.apps| == |setup.names|
    ensures after.pool.out + (if ev.token in after.control then 0 else 1)
            == OutWhenStarted(w.apps, w.pool.capacity, w.pool.out)
    ensures forall i :: 0 <= i < |w.apps| ==>
              StartLeaves(w.apps[i], w.pool.capacity, OutWhenStarted(w.apps[..i], w.pool.capacity, w.pool.out),
                after.apps[i])
    ensures response.StartedAll? && |response.started| + |response.failed| == |setup.names|
    ensures forall name :: name in response.started <==>
              exists i :: 0 <= i < |w.apps| && setup.names[i] == name
                          && w.apps[i].view.state.Stopped? && after.apps[i].view.state.Running?
    ensures forall name :: name in response.failed <==>
              exists i :: 0 <= i < |w.apps| && setup.names[i] == name
                          && (w.apps[i].view.state.Running? || after.apps[i].view.state.Stopped?)
    ensures w.control[ev.token] in after.sessions
    ensures var s, t := w.sessions[w.control[ev.token]], after.sessions[w.control[ev.token]];
            t.broken || t.responses == s.responses + [response]
  {
    hide SoundWorld, EventStep, Effect, StartOutcome, StartLeaves, Flatten, Takable, BringsLines, NamesOf, AfterStarts,
      OutWhenStarted;
    var pool;
    response, pool := LineIsAnswered(setup, w, ev, after, line);
    var results := StartAllEffect(setup.names, EstateIn(w), Estate(after.apps, pool), response);
    NamesSorted(setup.names, results);
    assert w.apps[..|w.apps|] == w.apps;
    StartsTake(w.apps, w.pool);
    forall i | 0 <= i < |w.apps|
      ensures StartLeaves(w.apps[i], w.pool.capacity, OutWhenStarted(w.apps[..i], w.pool.capacity, w.pool.out),
                after.apps[i])
      ensures results[i].Ok? <==> w.apps[i].view.state.Stopped? && after.apps[i].view.state.Running?
    {
      StartsTake(w.apps[..i], w.pool);
      StartInStates(w.apps[i], after.apps[i], AfterStarts(w.apps[..i], w.pool), results[i]);
    }
  }

  /** Requests about a name that no app has, and lines that are no requests, change no app. */
  lemma UnknownNameIsTold(setup: Setup, w: World, ev: IoEvent, after: World, line: seq<byte>, name: Name, force: bool)
    returns (response: Response)
    requires SoundWorld(setup, w) && EventStep(setup, w, ev, after) && BringsLines(w, ev, [line])
    requires setup.codec.decode(line)
             in {None, Some(Start(name)), Some(Stop(name, force)), Some(Info(name)), Some(Request.Config(name))}
    requires name !in setup.names
    ensures after.apps == w.apps
    ensures response == if setup.codec.decode(line).None? then Error else AppNotFound(name, setup.names)
    ensures w.control[ev.token] in after.sessions
    ensures var s, t := w.sessions[w.control[ev.token]], after.sessions[w.control[ev.token]];
            t.broken || t.responses == s.responses + [response]
  {
    hide SoundWorld, EventStep, StartOutcome, StopOutcome, Flatten, Takable, BringsLines, Describes;
    var pool;
    response, pool := LineIsAnswered(setup, w, ev, after, line);
  }

  /** A request that only asks changes no app. What is said of an app is its name, its state, how often it was
      restarted automatically, and how many bytes it has logged; its configuration is what it was created
      with. */
  lemma QueryIsAnswered(setup: Setup, w: World, ev: IoEvent, after: World, line: seq<byte>, name: Name, i: nat)
    returns (response: Response)
    requires SoundWorld(setup, w) && EventStep(setup, w, ev, after) && BringsLines(w, ev, [line])
    requires i < |setup.names| && setup.names[i] == name && name !in setup.names[..i]
    requires setup.codec.decode(line) in {Some(List), Some(Info(name)), Some(Request.Config(name))}
    ensures after.apps == w.apps && |w.apps| == |setup.names|
    ensures match setup.codec.decode(line)
            case Some(List) =>
              && response.AppList? && |response.apps| == |w.apps|
              && forall j :: 0 <= j < |w.apps| ==>
                  response.apps[j] == AppInfo(w.apps[j].view.params.name, w.apps[j].view.state,
                    w.apps[j].view.restartCount, |w.apps[j].log|)
            case Some(Info(_)) =>
              response == InfoReply(name, AppInfo(w.apps[i].view.params.name, w.apps[i].view.state,
                w.apps[i].view.restartCount, |w.apps[i].log|))
            case _ => response == ConfigReply(name, w.apps[i].view.params)
    ensures w.control[ev.token] in after.sessions
    ensures var s, t := w.sessions[w.control[ev.token]], after.sessions[w.control[ev.token]];
            t.broken || t.responses == s.responses + [response]
  {
    hide SoundWorld, EventStep, Flatten, Takable, BringsLines;
    var pool;
    response, pool := LineIsAnswered(setup, w, ev, after, line);
    IndexIs(setup.names, name, i);
  }

  // Nothing else is done

  /** A request that stops the app under a name, or all. */
  predicate IsStopFor(request: Option<Request>, name: Name) {
    match request
    case Some(Stop(stopped, _)) => stopped == name
    case Some(StopAll(_)) => true
    case _ => false
  }

  lemma StartSignals(before: AppSnapshot, after: AppSnapshot, pool: Pool, r: Apps.Result<()>)
    requires StartOutcome(before, after, pool, r)
    ensures after.signals == before.signals
  {
  }

  lemma StopSignals(before: AppSnapshot, after: AppSnapshot, force: bool, r: Apps.Result<bool>)
    requires StopOutcome(before, after, force, r)
    ensures before.signals <= after.signals
  {
  }

  lemma RequestSignals(names: seq<Name>, request: Option<Request>, before: Estate, after: Estate, response: Response,
      i: nat)
    requires |before.apps| == |after.apps| == |names| && Effect(names, request, before, after, response) && i < |names|
    ensures before.apps[i].signals <= after.apps[i].signals
    ensures !IsStopFor(request, names[i]) ==> after.apps[i].signals == before.apps[i].signals
  {
    hide Answers, AfterStart, AfterStarts, StartOutcome, StopOutcome;
    match request
    case Some(Start(name)) =>
      if IndexOf(names, name) == Option.Some(i) {
        var r :| StartOutcome(before.apps[i], after.apps[i], before.pool, r);
        StartSignals(before.apps[i], after.apps[i], before.pool, r);
      }
    case Some(StartAll) =>
      var results :| AllStarted(before, after, results);
      StartSignals(before.apps[i], after.apps[i], AfterStarts(before.apps[..i], before.pool), results[i]);
    case Some(Stop(name, force)) =>
      if IndexOf(names, name) == Option.Some(i) {
        var r :| StopOutcome(before.apps[i], after.apps[i], force, r);
        StopSignals(before.apps[i], after.apps[i], force, r);
      }
    case Some(StopAll(force)) =>
      var results :| AllStopped(before.apps, after.apps, force, results);
      StopSignals(before.apps[i], after.apps[i], force, results[i]);
    case _ =>
  }

  lemma {:induction false} RequestsSignal(codec: Codec, names: seq<Name>, lines: seq<seq<byte>>,
      responses: seq<Response>, before: Estate, after: Estate, i: nat)
    requires |lines| == |responses| && CarriedOut(codec, names, lines, responses, before, after) && i < |names|
    ensures |before.apps| == |after.apps| == |names|
    ensures before.apps[i].signals <= after.apps[i].signals
    ensures (forall k :: 0 <= k < |lines| ==> !IsStopFor(codec.decode(lines[k]), names[i])) ==>
              after.apps[i].signals == before.apps[i].signals
    decreases |lines|
  {
    hide Effect, IsStopFor;
    if lines != [] {
      var n := |lines| - 1;
      var mid := LastCarriedOut(codec, names, lines, responses, before, after);
      RequestsSignal(codec, names, lines[..n], responses[..n], before, mid, i);
      RequestSignals(names, codec.decode(lines[n]), mid, after, responses[n], i);
    }
  }

  lemma ControlSignals(setup: Setup, w: World, ev: IoEvent, after: World, i: nat)
    requires ev.token in w.control && ControlStep(setup, w, ev, after) && i < |setup.names|
    ensures |after.apps| == |w.apps| == |setup.names| && w.apps[i].signals <= after.apps[i].signals
    ensures (forall k :: 0 <= k < |NewRequests(w, ev)| ==>
               !IsStopFor(setup.codec.decode(NewRequests(w, ev)[k]), setup.names[i])) ==>
              after.apps[i].signals == w.apps[i].signals
  {
    hide CarriedOut, SessionStep, ControlStep, NewRequests, IsStopFor;
    var done, answers, pool := ControlCarriesOut(setup, w, ev, after);
    OnlyNewRequests(setup, w, ev, after.sessions[w.control[ev.token]], done, answers);
    assert forall k :: 0 <= k < |done| ==> done[k] == NewRequests(w, ev)[k];
    RequestsSignal(setup.codec, setup.names, done, answers, EstateIn(w), Estate(after.apps, pool), i);
  }

  /** No event sends an app a signal unless it brings a request to stop the app, or to stop all. */
  lemma OnlyStopsSignal(setup: Setup, w: World, ev: IoEvent, after: World, i: nat)
    requires |w.apps| == |setup.names| == |setup.rings| && EventStep(setup, w, ev, after) && i < |w.apps|
    ensures |after.apps| == |w.apps| && w.apps[i].signals <= after.apps[i].signals
    ensures (forall k :: 0 <= k < |NewRequests(w, ev)| ==>
               !IsStopFor(setup.codec.decode(NewRequests(w, ev)[k]), setup.names[i])) ==>
              after.apps[i].signals == w.apps[i].signals
  {
    hide ControlStep, LogStep, ControlAccepted, LogsAccepted, Exited, NewRequests, IsStopFor;
    if ev.token == SIGNALFD_TOKEN {
    } else if ev.token == UNIX_LISTENER_TOKEN {
      ControlAcceptedKeeps(setup, w, ev.pending, after);
    } else if ev.token == LOG_LISTENER_TOKEN {
      LogsAcceptedKeeps(setup, w, ev.pending, after);
    } else if ev.token in w.control {
      ControlSignals(setup, w, ev, after, i);
    } else if ev.token in w.logs {
      LogStepKeeps(setup, w, ev, after);
    }
  }
}
