/** The daemon's main loop: one batch of events, then pushing logs, restarting, shutting down, and
    deciding whether to leave. */
module Daemon {
  import opened Basics
  import opened Lifecycle
  import opened DoubledMapping
  import opened TokenSlab
  import opened Apps
  import opened Fleet
  import opened LogIpc
  import opened Framing
  import opened ControlIpc
  import opened ControlServer
  import opened DaemonSteps
  import opened DaemonRuns
  import opened DaemonTurns
  import Kernel

  // How steps of one party leave the ledger to the others

  lemma ControlLedger(a: Ledger, b: Ledger, helds: seq<Option<AppRtTokens>>, control: set<Token>, control': set<Token>,
      logs: set<Token>)
    requires Accounted(a, helds, control, logs)
    requires OthersKept(a, b, ControlParty) && ConnClaims(b, control', ControlConn)
    ensures Accounted(b, helds, control', logs)
  {
    forall i | 0 <= i < |helds| ensures AppClaims(b, i, helds[i]) {
      assert AppClaims(a, i, helds[i]);
    }
  }

  lemma LogLedger(a: Ledger, b: Ledger, helds: seq<Option<AppRtTokens>>, control: set<Token>, logs: set<Token>,
      logs': set<Token>)
    requires Accounted(a, helds, control, logs)
    requires OthersKept(a, b, LogParty) && ConnClaims(b, logs', LogConn)
    ensures Accounted(b, helds, control, logs')
  {
    forall i | 0 <= i < |helds| ensures AppClaims(b, i, helds[i]) {
      assert AppClaims(a, i, helds[i]);
    }
  }

  lemma AppsLedger(a: Ledger, b: Ledger, helds: seq<Option<AppRtTokens>>, helds': seq<Option<AppRtTokens>>,
      control: set<Token>, logs: set<Token>)
    requires Accounted(a, helds, control, logs) && |helds| == |helds'|
    requires ConnsKept(a, b, |helds|) && Claims(b, helds')
    ensures Accounted(b, helds', control, logs)
  {
  }

  lemma AccountedParts(a: Ledger, helds: seq<Option<AppRtTokens>>, control: set<Token>, logs: set<Token>)
    requires Accounted(a, helds, control, logs)
    ensures ConnClaims(a, control, ControlConn) && ConnClaims(a, logs, LogConn) && Claims(a, helds)
  {
  }

  lemma AppIsApart(ledger: Ledger, w: World, i: nat)
    requires Accounted(ledger, HeldsIn(w.apps), w.control.Keys, w.logs.Keys) && i < |w.apps|
    requires forall t :: t in ledger ==> t >= RESERVED_MIO_TOKENS
    ensures AppApart(w, i)
  {
    hide TokenSet, AppClaims, ConnClaims;
    var helds := HeldsIn(w.apps);
    assert AppClaims(ledger, i, helds[i]);
    ThreeTokens(ledger, i, helds[i]);
    forall t | t in TokenSet(helds[i])
      ensures t >= RESERVED_MIO_TOKENS && t !in w.control && t !in w.logs
      ensures forall j :: 0 <= j < |w.apps| && j != i ==> t !in TokenSet(helds[j])
    {
      OneReceiver(ledger, helds, w.control.Keys, w.logs.Keys, t, i);
    }
  }

  lemma ConnsApart(ledger: Ledger, w: World)
    requires ConnClaims(ledger, w.control.Keys, ControlConn) && ConnClaims(ledger, w.logs.Keys, LogConn)
    requires forall t :: t in ledger ==> t >= RESERVED_MIO_TOKENS
    ensures w.control.Keys !! w.logs.Keys
    ensures forall t :: t in w.control.Keys + w.logs.Keys ==> t >= RESERVED_MIO_TOKENS
  {
  }

  /** The tokens of a sound ledger, seen from the holders. */
  lemma LedgerApart(ledger: Ledger, w: World)
    requires Accounted(ledger, HeldsIn(w.apps), w.control.Keys, w.logs.Keys)
    requires forall t :: t in ledger ==> t >= RESERVED_MIO_TOKENS
    ensures TokensApart(w)
  {
    hide AppApart, Accounted, ConnClaims;
    AccountedParts(ledger, HeldsIn(w.apps), w.control.Keys, w.logs.Keys);
    ConnsApart(ledger, w);
    forall i | 0 <= i < |w.apps| ensures AppApart(w, i) {
      AppIsApart(ledger, w, i);
    }
  }

  /** An event of a control connection, put together from its two halves. */
  lemma SessionStepMade(codec: Codec, before: Session, mid: Session, after: Session, ev: IoEvent,
      done: seq<seq<byte>>, answers: seq<Response>)
    requires if ev.readable then ReadHalf(before, mid, codec, ev.arrivals, ev.end, done, answers)
             else mid == before && !mid.broken && done == [] && answers == []
    requires after == if mid.broken then mid else mid.Finish(ev.writable, ev.link)
    requires !before.broken
    ensures SessionStep(codec, before, after, ev, done, answers)
  {
    hide RequestsIn, Leftover, Flatten, Answered, Session.Finish;
  }

  lemma SessionInOrder(s: Session, codec: Codec, writable: bool, link: Kernel.Link)
    requires s.Sound(codec) && !s.broken
    ensures s.Finish(writable, link).Dropped() || s.Finish(writable, link).Orderly(codec)
  {
    hide Session.Sound, Session.Orderly, Session.Finish;
    FinishSound(s, codec, writable, link);
  }

  lemma SessionIsSound(s: Session, codec: Codec)
    requires s.Orderly(codec)
    ensures s.Sound(codec) && !s.broken
  {
  }

  lemma ReadSession(before: Session, after: Session, codec: Codec, ev: IoEvent, done: seq<seq<byte>>,
      answers: seq<Response>)
    requires before.Orderly(codec) && ReadHalf(before, after, codec, ev.arrivals, ev.end, done, answers)
    ensures !after.broken ==> after.Sound(codec)
  {
    hide ReadHalf, Session.Sound;
    SessionIsSound(before, codec);
    ReadHalfSound(before, after, codec, ev.arrivals, ev.end, done, answers);
  }

  lemma ServedIsSound(f: Feed, logs: seq<LogView>)
    requires f.Served(logs)
    ensures f.Sound(logs) && !f.broken
  {
  }

  twostate lemma LogsGrow(apps: seq<App>)
    requires forall i :: 0 <= i < |apps| ==> old(apps[i].log.history) <= apps[i].log.history
    ensures Grown(old(LogsOf(apps)), LogsOf(apps))
  {
  }

  lemma ReactedGrows(before: seq<AppSnapshot>, after: seq<AppSnapshot>, ev: IoEvent, tryRestart: bool)
    requires AllReacted(before, after, ev.token, ForApp(ev), tryRestart)
    ensures forall i :: 0 <= i < |before| ==> before[i].log <= after[i].log
  {
    hide PollOutcome;
    forall i | 0 <= i < |before| ensures before[i].log <= after[i].log {
      ReactionIsNoRestart(before[i], after[i], ev.token, ForApp(ev), tryRestart);
    }
  }

  class Runtime {
    const apps: seq<App>
    const slab: MioTokenSlab
    const control: Server
    const logServer: LogServer
    const keepRunning: bool
    var stopping: bool
    var sigintCount: nat

    /** Every app is in its place and valid; every token out is held by exactly the one who is on
        record for it and is clear of the reserved ones. */
    ghost predicate Sound()
      reads this, slab, control, logServer
      reads apps, set a: App | a in apps :: a.log, set a: App | a in apps :: a.log.mmap.file
    {
      && InPlace(apps) && AllValid(apps)
      && slab.Valid() && slab.offset == RESERVED_MIO_TOKENS
      && Accounted(slab.owner, Helds(apps), control.connections.Keys, logServer.connections.Keys)
      && (stopping <==> sigintCount > 0)
    }

    /** In between events: the connections of both servers are in order. */
    ghost predicate Steady()
      reads this, slab, control, logServer, control.repr, logServer.repr
      reads apps, set a: App | a in apps :: a.log, set a: App | a in apps :: a.log.mmap.file
    {
      && Sound()
      && control.AllOrderly()
      && logServer.AllOrderly(LogsOf(apps))
    }

    ghost function Config(): (setup: Setup)
      ensures |setup.names| == |setup.rings| == |apps|
    {
      Setup(AppNames(apps), seq(|apps|, i requires 0 <= i < |apps| => apps[i].log.capacity), control.codec,
        control.maxConnections, logServer.maxConnections)
    }

    /** The daemon as it is at this moment. */
    ghost function Here(): (w: World)
      reads this, slab, control, logServer, control.repr, logServer.repr
      reads apps, set a: App | a in apps :: a.log
      ensures |w.apps| == |apps|
    {
      World(Snaps(apps), slab.Now(), control.connections, control.Sessions(), logServer.connections,
        logServer.Feeds(), sigintCount)
    }

    lemma LogsHere()
      ensures LogsIn(Config(), Here()) == LogsOf(apps)
    {
    }

    /** In every sound state the number of tokens out is three per running app, one per connection, and
        the leaked ones. */
    lemma TokensAccounted()
      requires Sound()
      ensures |slab.owner| == 3 * RunningCount(Helds(apps)) + |control.connections| + |logServer.connections|
                              + |LeakedTokens(slab.owner)|
    {
      hide App.Valid, InPlace, LeakedTokens;
      AllocatedCount(slab.owner, Helds(apps), control.connections.Keys, logServer.connections.Keys);
      assert |control.connections.Keys| == |control.connections|;
      assert |logServer.connections.Keys| == |logServer.connections|;
    }

    lemma SameHelds()
      ensures HeldsIn(Snaps(apps)) == Helds(apps)
    {
    }

    /** A daemon about to enter its loop: the apps are created and nobody is connected. */
    constructor (apps: seq<App>, slab: MioTokenSlab, codec: Codec, maxControl: nat, maxLogs: nat, keepRunning: bool)
      requires InPlace(apps) && AllValid(apps) && slab.Valid() && slab.offset == RESERVED_MIO_TOKENS
      requires Accounted(slab.owner, Helds(apps), {}, {})
      ensures Steady() && this.apps == apps && this.slab == slab && !stopping && this.keepRunning == keepRunning
      ensures control.connections == map[] && logServer.connections == map[] && sigintCount == 0
      ensures Config() == Setup(AppNames(apps), Config().rings, codec, maxControl, maxLogs)
    {
      hide App.Valid, Accounted, MioTokenSlab.Valid, Session.Orderly, Feed.Orderly, InPlace;
      this.apps, this.slab, this.keepRunning := apps, slab, keepRunning;
      control := new Server(maxControl, codec);
      logServer := new LogServer(maxLogs);
      stopping, sigintCount := false, 0;
      new;
      assert control.connections.Keys == {} && logServer.connections.Keys == {};
    }

    /** Whatever has happened, the daemon between events is sound. */
    lemma SoundHere()
      requires Steady()
      ensures SoundWorld(Config(), Here())
    {
      hide App.Valid, SoundSnapshot, Accounted, TokensApart, LeakedTokens, App.Snap, Session.Orderly, Feed.Orderly,
        LogConnection.Now, ControlConnection.Now, InPlace, InOrder;
      forall i | 0 <= i < |apps| ensures SoundSnapshot(apps[i].Snap()) {
        apps[i].SoundNow();
      }
      SameHelds();
      LedgerApart(slab.owner, Here());
      TokensAccounted();
      LogsHere();
      logServer.AreInOrder(LogsOf(apps));
    }

    /** Takes in pending control connections. */
    method TakeControl(pending: seq<bool>) returns (ok: bool)
      requires Steady()
      modifies slab, control
      ensures Steady() && control.AllNew(old(control.connections))
      ensures control.RoomIn(slab) == Admission(pending, control.maxConnections, old(control.RoomIn(slab)))
      ensures ok <==> Admitted(pending, control.maxConnections, old(control.RoomIn(slab)))
      ensures Kept(old(control.Sessions()), control.Sessions())
      ensures old(control.repr) <= control.repr && fresh(control.repr - old(control.repr))
    {
      hide AllValid, Accounted, ConnClaims, OthersKept, MioTokenSlab.Valid, Session.Orderly, InPlace, Feed.Orderly,
        Admission, Admitted, MioTokenSlab.Now, Server.AllNew, LogServer.AllOrderly, LogsOf;
      ghost var ledger, keys := slab.owner, control.connections.Keys;
      AccountedParts(ledger, Helds(apps), keys, logServer.connections.Keys);
      ok := control.AcceptAll(pending, slab);
      AppsStayValid(apps);
      LogsStay(apps);
      ControlLedger(ledger, slab.owner, Helds(apps), keys, control.connections.Keys, logServer.connections.Keys);
    }

    /** The same, as a step of the daemon. */
    method AcceptControl(pending: seq<bool>)
      requires Steady()
      modifies slab, control
      ensures Steady()
      ensures ControlAccepted(Config(), old(Here()), pending, Here())
      ensures old(control.repr) <= control.repr && fresh(control.repr - old(control.repr))
    {
      hide Snaps, LogServer.Feeds, Server.Sessions, Server.AllNew, Steady, Admission, ControlConnection.Now,
        LogConnection.Now, MioTokenSlab.Now, App.Snap;
      ghost var before := control.connections;
      var ok := TakeControl(pending);
      control.AreNew(before);
    }

    /** Takes in pending log connections. */
    method TakeLogs(pending: seq<bool>) returns (ok: bool)
      requires Steady()
      modifies slab, logServer
      ensures Steady() && logServer.AllNew(old(logServer.connections))
      ensures logServer.RoomIn(slab) == Admission(pending, logServer.maxConnections, old(logServer.RoomIn(slab)))
      ensures ok <==> Admitted(pending, logServer.maxConnections, old(logServer.RoomIn(slab)))
      ensures Kept(old(logServer.Feeds()), logServer.Feeds())
      ensures old(logServer.repr) <= logServer.repr && fresh(logServer.repr - old(logServer.repr))
    {
      hide AllValid, Accounted, ConnClaims, OthersKept, MioTokenSlab.Valid, Session.Orderly, InPlace, Feed.Orderly,
        Admission, Admitted, MioTokenSlab.Now, LogServer.AllNew, Server.AllOrderly;
      ghost var ledger, keys := slab.owner, logServer.connections.Keys;
      AccountedParts(ledger, Helds(apps), control.connections.Keys, keys);
      ok := logServer.AcceptAll(pending, slab, LogsOf(apps));
      AppsStayValid(apps);
      LogLedger(ledger, slab.owner, Helds(apps), control.connections.Keys, keys, logServer.connections.Keys);
    }

    /** The same, as a step of the daemon. */
    method AcceptLogs(pending: seq<bool>)
      requires Steady()
      modifies slab, logServer
      ensures Steady()
      ensures LogsAccepted(Config(), old(Here()), pending, Here())
      ensures old(logServer.repr) <= logServer.repr && fresh(logServer.repr - old(logServer.repr))
    {
      hide Snaps, LogServer.Feeds, Server.Sessions, LogServer.AllNew, Steady, Admission, ControlConnection.Now,
        LogConnection.Now, MioTokenSlab.Now, App.Snap;
      ghost var before := logServer.connections;
      var ok := TakeLogs(pending);
      logServer.AreNew(before);
    }

    /** Drops a control connection. */
    method CloseControl(token: Token)
      requires Sound() && control.OrderlyBut(token) && logServer.AllOrderly(LogsOf(apps))
      requires token in control.connections
      modifies slab, control
      ensures Steady() && slab.Now().Take(1) == old(slab.Now())
      ensures control.repr == old(control.repr) && control.connections == old(control.connections) - {token}
    {
      hide AllValid, Accounted, ConnClaims, OthersKept, MioTokenSlab.Valid, Session.Orderly, Feed.Orderly,
        MioTokenSlab.Now, InPlace, LogServer.AllOrderly, LogsOf, Server.OrderlyBut, Server.AllOrderly;
      ghost var ledger, keys := slab.owner, control.connections.Keys;
      AccountedParts(ledger, Helds(apps), keys, logServer.connections.Keys);
      control.Close(token, slab);
      AppsStayValid(apps);
      LogsStay(apps);
      ControlLedger(ledger, slab.owner, Helds(apps), keys, control.connections.Keys, logServer.connections.Keys);
    }

    /** Closes or re-registers a control connection after its event. */
    method ReconcileControl(token: Token, accepts: bool)
      requires Sound() && control.OrderlyBut(token) && logServer.AllOrderly(LogsOf(apps))
      requires token in control.connections
      requires var s := control.connections[token].Now(); s.Over() || s.Reregister(accepts).Orderly(control.codec)
      modifies slab, control, control.connections[token]
      ensures Steady() && control.repr == old(control.repr)
      ensures var conn, s := old(control.connections)[token], old(control.connections[token].Now());
              && conn.Now() == (if s.Over() then s else s.Reregister(accepts))
              && control.connections ==
                 (if s.Over() then old(control.connections) - {token} else old(control.connections))
              && Undropped(slab.Now(), s.Over()) == old(slab.Now())
    {
      hide AllValid, Accounted, ConnClaims, OthersKept, MioTokenSlab.Valid, MioTokenSlab.Now, Session.Orderly,
        Feed.Orderly, Session.Over, Session.Reregister, InPlace, ControlConnection.Now, LogServer.AllOrderly, LogsOf,
        Server.OrderlyBut, Server.AllOrderly;
      ghost var ledger, keys := slab.owner, control.connections.Keys;
      AccountedParts(ledger, Helds(apps), keys, logServer.connections.Keys);
      control.Reconcile(token, accepts, slab);
      AppsStayValid(apps);
      LogsStay(apps);
      control.BackInOrder(token);
      ControlLedger(ledger, slab.owner, Helds(apps), keys, control.connections.Keys, logServer.connections.Keys);
    }

    lemma ControlInOrder(t: Token)
      requires Steady() && t in control.connections
      ensures Sound() && control.OrderlyBut(t) && logServer.AllOrderly(LogsOf(apps))
      ensures control.connections[t].Now().Orderly(control.codec)
    {
      hide Sound, LogServer.AllOrderly, Session.Orderly;
    }

    /** The readable half of an event for a control connection. */
    method ReadControl(ev: IoEvent) returns (ok: bool, ghost done: seq<seq<byte>>, ghost answers: seq<Response>)
      requires Steady() && ev.token in control.connections && ev.readable
      modifies slab, apps, control.connections[ev.token]
      ensures Sound() && control.OrderlyBut(ev.token) && logServer.AllOrderly(LogsOf(apps))
      ensures |done| == |answers|
      ensures CarriedOut(control.codec, AppNames(apps), done, answers, old(EstateOf(apps, slab)), EstateOf(apps, slab))
      ensures var conn := control.connections[ev.token];
              && (ok <==> !conn.Now().broken)
              && ReadHalf(old(conn.Now()), conn.Now(), control.codec, ev.arrivals, ev.end, done, answers)
    {
      hide AllValid, App.Snap, Accounted, ConnClaims, ConnsKept, MioTokenSlab.Valid, MioTokenSlab.Now, CarriedOut,
        ReadHalf, InPlace, Session.Sound, LogServer.AllOrderly, LogsOf, Server.AllOrderly, Server.OrderlyBut;
      ControlInOrder(ev.token);
      ghost var ledger, helds := slab.owner, Helds(apps);
      AccountedParts(ledger, helds, control.connections.Keys, logServer.connections.Keys);
      ok, done, answers := control.HandleReadable(ev.token, ev.arrivals, ev.end, apps, slab);
      LogsStay(apps);
      AppsLedger(ledger, slab.owner, helds, Helds(apps), control.connections.Keys, logServer.connections.Keys);
    }

    /** Sends on the queue of a control connection. */
    method WriteControl(token: Token, outlet: Kernel.Outlet) returns (ok: bool)
      requires Sound() && control.OrderlyBut(token) && logServer.AllOrderly(LogsOf(apps))
      requires token in control.connections && !control.connections[token].Now().broken
      modifies control.connections[token]
      ensures Sound() && control.OrderlyBut(token) && logServer.AllOrderly(LogsOf(apps))
      ensures control.connections[token].Now() == old(control.connections[token].Now()).Flush(outlet)
      ensures ok <==> !control.connections[token].Now().broken
    {
      hide AllValid, Accounted, MioTokenSlab.Valid, Session.Orderly, Feed.Orderly, InPlace, Session.Flush,
        LogServer.AllOrderly, LogsOf;
      ok := control.HandleWritable(token, outlet);
      AppsStayValid(apps);
      LogsStay(apps);
    }

    /** The writable half of an event for a control connection, and what follows either half. */
    method FinishControl(ev: IoEvent)
      requires Sound() && ev.token in control.connections && control.OrderlyBut(ev.token)
      requires logServer.AllOrderly(LogsOf(apps))
      requires control.connections[ev.token].Now().Sound(control.codec) && !control.connections[ev.token].Now().broken
      modifies slab, control, control.connections[ev.token]
      ensures Steady() && control.repr == old(control.repr)
      ensures var conn := old(control.connections)[ev.token];
              && conn.Now() == old(conn.Now()).Finish(ev.writable, ev.link)
              && control.connections ==
                 (if conn.Now().Dropped() then old(control.connections) - {ev.token} else old(control.connections))
              && Undropped(slab.Now(), conn.Now().Dropped()) == old(slab.Now())
    {
      hide Sound, Session.Sound, Session.Orderly, Feed.Orderly, MioTokenSlab.Now, ControlConnection.Now, Session.Flush,
        Session.Over, Session.Reregister, LogServer.AllOrderly, Steady;
      SessionInOrder(control.connections[ev.token].Now(), control.codec, ev.writable, ev.link);
      if ev.writable {
        var ok := WriteControl(ev.token, ev.link.outlet);
        if !ok {
          CloseControl(ev.token);
          return;
        }
      }
      ReconcileControl(ev.token, ev.link.accepts);
    }

    /** An event for a control connection: the requests that have become complete are carried out,
        in order, and replies are sent as far as the socket takes them. */
    method ServeControl(ev: IoEvent) returns (ghost done: seq<seq<byte>>, ghost answers: seq<Response>)
      requires Steady() && ev.token in control.connections
      modifies slab, apps, control, control.connections[ev.token]
      ensures Steady() && control.repr == old(control.repr)
      ensures |done| == |answers|
      ensures var conn := old(control.connections)[ev.token];
              && CarriedOut(control.codec, AppNames(apps), done, answers, old(EstateOf(apps, slab)),
                   Estate(Snaps(apps), Undropped(slab.Now(), conn.Now().Dropped())))
              && control.connections ==
                 (if conn.Now().Dropped() then old(control.connections) - {ev.token} else old(control.connections))
              && SessionStep(control.codec, old(conn.Now()), conn.Now(), ev, done, answers)
    {
      hide Steady, Sound, Server.OrderlyBut, LogServer.AllOrderly, App.Snap, MioTokenSlab.Now, Session.Orderly,
        Session.Sound, Session.Over, Session.Finish, CarriedOut, SessionStep, ReadHalf, ControlConnection.Now;
      done, answers := [], [];
      NothingCarriedOut(control.codec, AppNames(apps), EstateOf(apps, slab));
      ghost var conn := control.connections[ev.token];
      ghost var before := conn.Now();
      ControlInOrder(ev.token);
      SessionIsSound(before, control.codec);
      if ev.readable {
        var ok;
        ok, done, answers := ReadControl(ev);
        ReadSession(before, conn.Now(), control.codec, ev, done, answers);
        if !ok {
          SessionStepMade(control.codec, before, conn.Now(), conn.Now(), ev, done, answers);
          CloseControl(ev.token);
          return;
        }
      }
      ghost var mid := conn.Now();
      FinishControl(ev);
      SessionStepMade(control.codec, before, mid, conn.Now(), ev, done, answers);
    }

    lemma AreFiled(t: Token)
      requires Steady()
      ensures t in control.connections ==> control.connections[t] in control.repr
      ensures t in logServer.connections ==> logServer.connections[t] in logServer.repr
    {
    }

    /** The same, as a step of the daemon. */
    method ControlEvent(ev: IoEvent)
      requires Steady() && ev.token in control.connections
      modifies slab, apps, control, control.connections[ev.token]
      ensures Steady() && control.repr == old(control.repr)
      ensures ControlStep(Config(), old(Here()), ev, Here())
    {
      hide Snaps, LogServer.Feeds, Steady, App.Snap, MioTokenSlab.Now, ControlConnection.Now, LogConnection.Now,
        CarriedOut, SessionStep,
        Session.Dropped, Undropped;
      AreFiled(ev.token);
      ghost var sessions, conn := control.Sessions(), control.connections[ev.token];
      ghost var done, answers := ServeControl(ev);
      assert control.Sessions() == sessions[conn := conn.Now()];
    }

    /** Drops a log connection. */
    method CloseLog(token: Token)
      requires Sound() && control.AllOrderly() && logServer.OrderlyBut(LogsOf(apps), token)
      requires token in logServer.connections
      modifies slab, logServer
      ensures Steady() && slab.Now().Take(1) == old(slab.Now())
      ensures logServer.repr == old(logServer.repr) && logServer.connections == old(logServer.connections) - {token}
    {
      hide AllValid, Accounted, ConnClaims, OthersKept, MioTokenSlab.Valid, Session.Orderly, Feed.Orderly,
        MioTokenSlab.Now, InPlace, Server.AllOrderly, LogServer.OrderlyBut, LogServer.AllOrderly;
      ghost var ledger, keys := slab.owner, logServer.connections.Keys;
      AccountedParts(ledger, Helds(apps), control.connections.Keys, keys);
      logServer.Close(token, slab, LogsOf(apps));
      AppsStayValid(apps);
      LogLedger(ledger, slab.owner, Helds(apps), control.connections.Keys, keys, logServer.connections.Keys);
    }

    /** Closes or re-registers a log connection after its event. */
    method ReconcileLog(token: Token, accepts: bool)
      requires Sound() && control.AllOrderly() && logServer.OrderlyBut(LogsOf(apps), token)
      requires token in logServer.connections
      requires var f := logServer.connections[token].Now(); f.Over() || f.Reregister(accepts).Orderly(LogsOf(apps))
      modifies slab, logServer, logServer.connections[token]
      ensures Steady() && logServer.repr == old(logServer.repr)
      ensures var conn, f := old(logServer.connections)[token], old(logServer.connections[token].Now());
              && conn.Now() == (if f.Over() then f else f.Reregister(accepts))
              && logServer.connections ==
                 (if f.Over() then old(logServer.connections) - {token} else old(logServer.connections))
              && Undropped(slab.Now(), f.Over()) == old(slab.Now())
    {
      hide AllValid, Accounted, ConnClaims, OthersKept, MioTokenSlab.Valid, MioTokenSlab.Now, Session.Orderly,
        Feed.Orderly, Feed.Over, Feed.Reregister, InPlace, LogConnection.Now, Server.AllOrderly,
        LogServer.OrderlyBut, LogServer.AllOrderly;
      ghost var ledger, keys := slab.owner, logServer.connections.Keys;
      AccountedParts(ledger, Helds(apps), control.connections.Keys, keys);
      logServer.Reconcile(token, accepts, slab, LogsOf(apps));
      AppsStayValid(apps);
      logServer.BackInOrder(LogsOf(apps), token);
      LogLedger(ledger, slab.owner, Helds(apps), control.connections.Keys, keys, logServer.connections.Keys);
    }

    /** The readable half of an event for a log connection. */
    method ReadLog(ev: IoEvent, ghost logs: seq<LogView>) returns (ok: bool)
      requires Steady() && ev.token in logServer.connections && logs == LogsOf(apps)
      modifies logServer.connections[ev.token]
      ensures Sound() && control.AllOrderly() && logServer.OrderlyBut(logs, ev.token)
      ensures var conn := logServer.connections[ev.token];
              && conn.Now() == old(conn.Now()).ReadHalf(ev.arrivals, ev.end, logs, ev.outlet)
              && (ok <==> !conn.Now().broken)
    {
      hide App.Valid, Accounted, MioTokenSlab.Valid, Session.Orderly, Feed.Orderly, InPlace, Reflects, Feed.ReadHalf,
        LogConnection.Now, Server.AllOrderly;
      ReflectsLogs(apps);
      ok := logServer.HandleReadable(ev.token, ev.arrivals, ev.end, ev.outlet, apps, logs);
      AppsStayValid(apps);
    }

    /** Sends on to a log connection. */
    method WriteLog(token: Token, outlet: Kernel.Outlet, ghost logs: seq<LogView>) returns (ok: bool)
      requires Sound() && control.AllOrderly() && logServer.OrderlyBut(logs, token) && logs == LogsOf(apps)
      requires token in logServer.connections
      requires logServer.connections[token].Now().Sound(logs) && !logServer.connections[token].Now().broken
      modifies logServer.connections[token]
      ensures Sound() && control.AllOrderly() && logServer.OrderlyBut(logs, token)
      ensures logServer.connections[token].Now() == old(logServer.connections[token].Now()).Send(logs, outlet)
      ensures ok <==> !logServer.connections[token].Now().broken
    {
      hide App.Valid, Accounted, MioTokenSlab.Valid, Session.Orderly, Feed.Orderly, Feed.Sound, Feed.Send, InPlace,
        Reflects, LogConnection.Now, Server.AllOrderly;
      ReflectsLogs(apps);
      ok := logServer.HandleWritable(token, outlet, apps, logs);
      AppsStayValid(apps);
    }

    /** The writable half of an event for a log connection, and what follows either half. */
    method FinishLog(ev: IoEvent, ghost logs: seq<LogView>)
      requires Sound() && control.AllOrderly() && logServer.OrderlyBut(logs, ev.token) && logs == LogsOf(apps)
      requires ev.token in logServer.connections
      requires var f := logServer.connections[ev.token].Now();
               f.Sound(logs) && !f.broken && (f.Served(logs) || f.Orderly(logs))
      modifies slab, logServer, logServer.connections[ev.token]
      ensures Steady() && logServer.repr == old(logServer.repr)
      ensures var conn := old(logServer.connections)[ev.token];
              && conn.Now() == old(conn.Now()).Finish(ev.writable, logs, ev.link)
              && logServer.connections ==
                 (if conn.Now().Dropped() then old(logServer.connections) - {ev.token} else old(logServer.connections))
              && Undropped(slab.Now(), conn.Now().Dropped()) == old(slab.Now())
    {
      hide Sound, Feed.Sound, Feed.Orderly, Feed.Served, Feed.Send, MioTokenSlab.Now, LogConnection.Now, Feed.Over,
        Feed.Reregister, Server.AllOrderly, Steady;
      FinishSettles(logServer.connections[ev.token].Now(), ev.writable, logs, ev.link);
      if ev.writable {
        var ok := WriteLog(ev.token, ev.link.outlet, logs);
        if !ok {
          CloseLog(ev.token);
          return;
        }
      }
      ReconcileLog(ev.token, ev.link.accepts);
    }

    lemma LogInOrder(t: Token)
      requires Steady() && t in logServer.connections
      ensures Sound() && control.AllOrderly() && logServer.OrderlyBut(LogsOf(apps), t)
      ensures logServer.connections[t].Now().Orderly(LogsOf(apps))
    {
      hide Sound, Server.AllOrderly, Feed.Orderly;
    }

    /** An event for a log connection. */
    method ServeLog(ev: IoEvent, ghost logs: seq<LogView>)
      requires Steady() && ev.token in logServer.connections && logs == LogsOf(apps)
      modifies slab, logServer, logServer.connections[ev.token]
      ensures Steady() && logServer.repr == old(logServer.repr)
      ensures var conn := old(logServer.connections)[ev.token];
              && conn.Now() == FeedAfter(old(conn.Now()), ev, logs)
              && logServer.connections ==
                 (if conn.Now().Dropped() then old(logServer.connections) - {ev.token} else old(logServer.connections))
              && Undropped(slab.Now(), conn.Now().Dropped()) == old(slab.Now())
    {
      hide Steady, Sound, LogServer.OrderlyBut, Server.AllOrderly, Feed.Sound, Feed.Orderly, Feed.Served, Feed.Over,
        Feed.ReadHalf, Feed.Finish, MioTokenSlab.Now, LogConnection.Now;
      LogInOrder(ev.token);
      ghost var f := logServer.connections[ev.token].Now();
      OrderlyIsSound(f, logs);
      if ev.readable {
        ReadHalfServes(f, logs, ev.arrivals, ev.end, ev.outlet);
        var ok := ReadLog(ev, logs);
        if !ok {
          CloseLog(ev.token);
          return;
        }
        ServedIsSound(logServer.connections[ev.token].Now(), logs);
      }
      FinishLog(ev, logs);
    }

    /** The same, as a step of the daemon. */
    method LogEvent(ev: IoEvent)
      requires Steady() && ev.token in logServer.connections
      modifies slab, logServer, logServer.connections[ev.token]
      ensures Steady() && logServer.repr == old(logServer.repr)
      ensures LogStep(Config(), old(Here()), ev, Here())
    {
      hide Snaps, Server.Sessions, Steady, App.Snap, MioTokenSlab.Now, ControlConnection.Now, LogConnection.Now,
        FeedAfter, Feed.Dropped,
        Undropped, LogsIn;
      AreFiled(ev.token);
      LogsHere();
      ghost var feeds, conn := logServer.Feeds(), logServer.connections[ev.token];
      ServeLog(ev, LogsOf(apps));
      assert logServer.Feeds() == feeds[conn := conn.Now()];
    }

    /** Offers an event to every app, of which only the token's holder reacts. */
    method PollApps(ev: IoEvent)
      requires Sound()
      modifies slab, apps, set a: App | a in apps :: a.log, set a: App | a in apps :: a.log.mmap.file
      ensures Sound() && slab.Now().lost == old(slab.Now().lost)
      ensures AllReacted(old(Snaps(apps)), Snaps(apps), ev.token, ForApp(ev), !stopping)
      ensures Grown(old(LogsOf(apps)), LogsOf(apps))
    {
      hide AllValid, Accounted, ConnClaims, ConnsKept, MioTokenSlab.Valid, InPlace, MioTokenSlab.Now,
        AllReacted, Grown;
      ghost var ledger, helds, snaps := slab.owner, Helds(apps), Snaps(apps);
      AccountedParts(ledger, helds, control.connections.Keys, logServer.connections.Keys);
      PollAll(apps, slab, ev.token, ForApp(ev), !stopping);
      ReactedGrows(snaps, Snaps(apps), ev, !stopping);
      forall i | 0 <= i < |apps| ensures old(apps[i].log.history) <= apps[i].log.history {
        assert snaps[i].log <= Snaps(apps)[i].log;
      }
      LogsGrow(apps);
      AppsLedger(ledger, slab.owner, helds, Helds(apps), control.connections.Keys, logServer.connections.Keys);
    }

    lemma StoppingIsInterrupted()
      requires Steady()
      ensures stopping <==> sigintCount > 0
    {
    }

    /** Offers an event for anyone but a connection to the apps. */
    method OfferToApps(ev: IoEvent)
      requires Steady()
      modifies slab, apps, set a: App | a in apps :: a.log, set a: App | a in apps :: a.log.mmap.file
      ensures Steady() && slab.Now().lost == old(slab.Now().lost)
      ensures AllReacted(old(Snaps(apps)), Snaps(apps), ev.token, ForApp(ev), sigintCount == 0)
    {
      hide Sound, App.Snap, MioTokenSlab.Now, Feed.Orderly, LogConnection.Now, AllReacted, Grown, Snaps,
        Server.AllOrderly;
      StoppingIsInterrupted();
      ghost var logs := LogsOf(apps);
      PollApps(ev);
      logServer.AllOrderlyGrows(logs, LogsOf(apps));
    }

    /** The same, as a step of the daemon. */
    method AppEvent(ev: IoEvent)
      requires Steady()
      modifies slab, apps, set a: App | a in apps :: a.log, set a: App | a in apps :: a.log.mmap.file
      ensures Steady() && AppStep(old(Here()), ev, Here())
    {
      hide Steady, App.Snap, MioTokenSlab.Now, ControlConnection.Now, LogConnection.Now, AllReacted, Snaps,
        Server.Sessions, LogServer.Feeds;
      OfferToApps(ev);
    }

    /** Handles an event for one of the tokens handed out: first come the control connections, then
        the log connections, then the apps. */
    method DispatchHeld(ev: IoEvent)
      requires Steady() && ev.token >= RESERVED_MIO_TOKENS
      modifies slab, control, control.repr, logServer, logServer.repr
      modifies apps, set a: App | a in apps :: a.log, set a: App | a in apps :: a.log.mmap.file
      ensures Steady()
      ensures EventStep(Config(), old(Here()), ev, Here())
      ensures control.repr == old(control.repr) && logServer.repr == old(logServer.repr)
    {
      hide Steady, AppStep, LogStep, ControlStep, Snaps, Server.Sessions, LogServer.Feeds, MioTokenSlab.Now;
      AreFiled(ev.token);
      if control.IsKnown(ev.token) {
        ControlEvent(ev);
      } else if logServer.IsKnown(ev.token) {
        LogEvent(ev);
      } else {
        AppEvent(ev);
      }
    }

    /** A signal has been read. */
    method ReadSignal(signal: int)
      requires Steady()
      modifies `stopping, `sigintCount
      ensures Steady()
      ensures sigintCount == old(sigintCount) + if signal == SIGINT then 1 else 0
    {
      hide App.Valid, Accounted, MioTokenSlab.Valid, Session.Orderly, Feed.Orderly, Server.AllOrderly,
        LogServer.AllOrderly, LogsOf;
      if signal == SIGINT {
        sigintCount := sigintCount + 1;
        stopping := true;
      }
    }

    /** Handles one event. */
    method Dispatch(ev: IoEvent)
      requires Steady()
      modifies `stopping, `sigintCount, slab, control, control.repr, logServer, logServer.repr
      modifies apps, set a: App | a in apps :: a.log, set a: App | a in apps :: a.log.mmap.file
      ensures Steady()
      ensures EventStep(Config(), old(Here()), ev, Here())
      ensures old(control.repr) <= control.repr && fresh(control.repr - old(control.repr))
      ensures old(logServer.repr) <= logServer.repr && fresh(logServer.repr - old(logServer.repr))
    {
      hide Steady, AppStep, LogStep, ControlStep, ControlAccepted, LogsAccepted;
      if ev.token == SIGNALFD_TOKEN {
        ReadSignal(ev.signal);
      } else if ev.token == UNIX_LISTENER_TOKEN {
        AcceptControl(ev.pending);
      } else if ev.token == LOG_LISTENER_TOKEN {
        AcceptLogs(ev.pending);
      } else {
        DispatchHeld(ev);
      }
    }

    lemma SameNumber()
      ensures |Here().apps| == |Config().names| == |Config().rings|
    {
    }

    /** Handles a batch of events in order. */
    method DispatchAll(events: seq<IoEvent>) returns (ghost worlds: seq<World>)
      requires Steady()
      modifies `stopping, `sigintCount, slab, control, control.repr, logServer, logServer.repr
      modifies apps, set a: App | a in apps :: a.log, set a: App | a in apps :: a.log.mmap.file
      ensures Steady()
      ensures Handled(Config(), worlds, events) && worlds[0] == old(Here()) && worlds[|events|] == Here()
      ensures old(control.repr) <= control.repr && fresh(control.repr - old(control.repr))
      ensures old(logServer.repr) <= logServer.repr && fresh(logServer.repr - old(logServer.repr))
    {
      hide Steady, EventStep, Here, Config, SoundWorld, Handled;
      SoundHere();
      worlds := [Here()];
      NothingHandled(Config(), Here());
      for i := 0 to |events|
        invariant Steady()
        invariant Handled(Config(), worlds, events[..i])
        invariant |worlds| == i + 1 && worlds[0] == old(Here()) && worlds[i] == Here()
        invariant old(control.repr) <= control.repr && fresh(control.repr - old(control.repr))
        invariant old(logServer.repr) <= logServer.repr && fresh(logServer.repr - old(logServer.repr))
      {
        SameNumber();
        Dispatch(events[i]);
        SoundHere();
        OneMoreHandled(Config(), worlds, events[..i], events[i], Here());
        worlds := worlds + [Here()];
        assert events[..i + 1] == events[..i] + [events[i]];
      }
      assert events[..|events|] == events;
    }

    /** Forwards fresh output to the followers. */
    method Push(links: Token -> Kernel.Link)
      requires Steady()
      modifies slab, logServer, logServer.repr
      ensures Steady() && slab.Now().lost == old(slab.Now().lost)
      ensures Pushed(old(logServer.connections), logServer.connections, {},
                old(logServer.Feeds()), logServer.Feeds(), LogsOf(apps), links)
      ensures logServer.repr == old(logServer.repr)
    {
      hide App.Valid, Accounted, ConnClaims, OthersKept, MioTokenSlab.Valid, Session.Orderly, Feed.Orderly, Reflects,
        MioTokenSlab.Now, Pushed, InPlace, LogConnection.Now, Server.AllOrderly;
      ghost var ledger, keys, logs := slab.owner, logServer.connections.Keys, LogsOf(apps);
      AccountedParts(ledger, Helds(apps), control.connections.Keys, keys);
      ReflectsLogs(apps);
      logServer.PushUpdates(links, apps, slab, logs);
      AppsStayValid(apps);
      LogLedger(ledger, slab.owner, Helds(apps), control.connections.Keys, keys, logServer.connections.Keys);
    }

    /** The same, as a step of the daemon. */
    method PushLogs(links: Token -> Kernel.Link)
      requires Steady()
      modifies slab, logServer, logServer.repr
      ensures Steady()
      ensures PushStep(Config(), old(Here()), links, Here())
      ensures logServer.repr == old(logServer.repr)
    {
      hide Steady, App.Snap, ControlConnection.Now, LogConnection.Now, Pushed;
      LogsHere();
      Push(links);
    }

    /** Fires the restarts that are due, or cancels them all when stopping. */
    method FireRestarts(now: Instant)
      requires Steady()
      modifies slab, apps
      ensures Steady()
      ensures AllPhased(old(EstateOf(apps, slab)), EstateOf(apps, slab), now, !stopping)
    {
      hide AllValid, Accounted, ConnClaims, ConnsKept, MioTokenSlab.Valid, Session.Orderly, Feed.Orderly, AllPhased,
        MioTokenSlab.Now, InPlace, App.Snap, Server.AllOrderly, LogServer.AllOrderly, LogsOf;
      ghost var ledger, helds := slab.owner, Helds(apps);
      AccountedParts(ledger, helds, control.connections.Keys, logServer.connections.Keys);
      RestartPass(apps, now, slab, !stopping);
      LogsStay(apps);
      AppsLedger(ledger, slab.owner, helds, Helds(apps), control.connections.Keys, logServer.connections.Keys);
    }

    /** The same, as a step of the daemon. */
    method RestartPhase(now: Instant)
      requires Steady()
      modifies slab, apps
      ensures Steady()
      ensures PhaseStep(old(Here()), Here(), now)
    {
      hide Steady, AllPhased, MioTokenSlab.Now, App.Snap, ControlConnection.Now, LogConnection.Now;
      StoppingIsInterrupted();
      FireRestarts(now);
    }

    /** Stops every app. */
    method StopEveryone(force: bool)
      requires Steady()
      modifies apps
      ensures Steady()
      ensures StopAsked(old(Snaps(apps)), Snaps(apps), force)
    {
      hide AllValid, Accounted, MioTokenSlab.Valid, Session.Orderly, Feed.Orderly, AllStopped, InPlace, App.Snap,
        Server.AllOrderly, LogServer.AllOrderly, LogsOf;
      var results := Fleet.StopAll(apps, force);
      LogsStay(apps);
    }

    /** After an interrupt, stops every app; from the second one on by force. */
    method ShutdownPhase()
      requires Steady()
      modifies apps
      ensures Steady()
      ensures StopStep(old(Here()), Here())
    {
      hide Snaps, Server.Sessions, LogServer.Feeds, Steady, StopAsked, MioTokenSlab.Now, App.Snap,
        ControlConnection.Now, LogConnection.Now;
      if sigintCount >= SIGINT_THRESHOLD {
        StopEveryone(true);
      } else if sigintCount > 0 {
        StopEveryone(false);
      }
    }

    /** Whether every app is down with no restart pending. */
    predicate AllReturned()
      reads apps
    {
      forall i :: 0 <= i < |apps| ==> !apps[i].state.Running? && PendingDeadline(apps[i].state).None?
    }

    lemma ReturnedIsNobodyUp()
      ensures AllReturned() <==> NobodyUp(Here().apps)
      ensures Here().sigints == sigintCount
    {
      forall i | 0 <= i < |apps| ensures Here().apps[i].view.state == apps[i].state {
      }
    }

    lemma StatesHere()
      ensures forall i :: 0 <= i < |apps| ==> Here().apps[i].view.state == apps[i].state
      ensures Here().sigints == sigintCount
    {
    }

    /** The longest the daemon may sleep at `at`: up to the earliest pending deadline, not at all
        if that has passed, and without limit if none is pending. */
    method Timeout(at: Instant) returns (timeout: Option<real>)
      ensures WakesInTime(Here().apps, at, timeout)
    {
      var earliest: Option<Instant> := None;
      for i := 0 to |apps|
        invariant earliest.None? <==> forall j :: 0 <= j < i ==> PendingDeadline(apps[j].state).None?
        invariant earliest.Some? ==>
                    && (forall j :: 0 <= j < i && PendingDeadline(apps[j].state).Some? ==>
                          earliest.value <= PendingDeadline(apps[j].state).value)
                    && (exists j :: 0 <= j < i && PendingDeadline(apps[j].state) == earliest)
      {
        var deadline := PendingDeadline(apps[i].state);
        if deadline.Some? && (earliest.None? || deadline.value < earliest.value) {
          earliest := deadline;
        }
      }
      if earliest.Some? {
        timeout := Some(MaxReal(earliest.value - at, 0.0));
      } else {
        timeout := None;
      }
      assert forall i :: 0 <= i < |apps| ==> Here().apps[i].view.state == apps[i].state;
    }

    /** One iteration of the loop after `poll` has returned. */
    method Iterate(wake: Wake) returns (leave: bool, ghost course: Course)
      requires Steady()
      modifies `stopping, `sigintCount, slab, control, control.repr, logServer, logServer.repr
      modifies apps, set a: App | a in apps :: a.log, set a: App | a in apps :: a.log.mmap.file
      ensures Steady()
      ensures old(control.repr) <= control.repr && fresh(control.repr - old(control.repr))
      ensures old(logServer.repr) <= logServer.repr && fresh(logServer.repr - old(logServer.repr))
      ensures Turn(Config(), old(Here()), wake, course, Here())
      ensures leave <==> MayLeave(keepRunning, Here())
      ensures leave <==>
                && (sigintCount > 0 || !keepRunning)
                && forall i :: 0 <= i < |apps| ==>
                    apps[i].state.Stopped?
                    && (apps[i].state.last.Some? ==> apps[i].state.last.value.restartDeadline.None?)
    {
      hide Steady, Handled, PushStep, PhaseStep, StopStep, SoundWorld, NobodyUp, Here, Config;
      ghost var worlds := DispatchAll(wake.events);
      SameNumber();
      PushLogs(wake.links);
      SoundHere();
      ghost var pushed := Here();
      RestartPhase(wake.now);
      SoundHere();
      ghost var phased := Here();
      ShutdownPhase();
      SoundHere();
      course := Course(worlds, pushed, phased);
      ReturnedIsNobodyUp();
      LeavesUnlessBusy(keepRunning, Here());
      StatesHere();
      leave := (!keepRunning || sigintCount > 0) && AllReturned();
    }

    /** The loop is left only when every runtime object ever created has been cleaned up. */
    lemma LeavingCleanedUp()
      requires Steady() && MayLeave(keepRunning, Here())
      ensures forall i :: 0 <= i < |apps| ==> apps[i].created == apps[i].cleaned
    {
      hide App.Valid;
      forall i | 0 <= i < |apps| ensures apps[i].created == apps[i].cleaned {
        apps[i].SoundNow();
        assert !Here().apps[i].view.state.Running?;
      }
    }

    lemma AllLeaveUnlessBusy(history: seq<World>)
      ensures forall k :: 0 < k < |history| ==>
                (MayLeave(keepRunning, history[k])
                 <==> (history[k].sigints > 0 || !keepRunning) && !IsBusy(history[k]))
    {
      hide MayLeave, IsBusy;
      forall k | 0 < k < |history| {
        LeavesUnlessBusy(keepRunning, history[k]);
      }
    }

    /** The whole loop, for as long as `poll` returns: before each wait it sleeps past no pending
        deadline, each iteration is a turn, and the loop is left at the end of the first one after
        which nothing is up or about to be, unless it is to keep running. */
    method MainLoop(wakes: seq<Wake>) returns (left: bool, ghost history: seq<World>, ghost laps: seq<Lap>)
      requires Steady()
      modifies `stopping, `sigintCount, slab, control, control.repr, logServer, logServer.repr
      modifies apps, set a: App | a in apps :: a.log, set a: App | a in apps :: a.log.mmap.file
      ensures Steady()
      ensures IsHistory(Config(), history, wakes, laps) && history[0] == old(Here()) && history[|laps|] == Here()
      ensures forall k :: 0 < k < |laps| ==> !MayLeave(keepRunning, history[k])
      ensures if left then laps != [] && MayLeave(keepRunning, history[|laps|])
              else |laps| == |wakes| && (wakes != [] ==> !MayLeave(keepRunning, history[|laps|]))
      ensures left ==> forall i :: 0 <= i < |apps| ==> apps[i].created == apps[i].cleaned
      ensures forall k :: 0 < k < |history| ==>
                (left && k == |laps| <==> (history[k].sigints > 0 || !keepRunning) && !IsBusy(history[k]))
    {
      hide Steady, Turn, MayLeave, WakesInTime, IsHistory, Here, Config, IsBusy;
      left := false;
      history, laps := [Here()], [];
      HistoryBegins(Config(), Here(), wakes);
      for i := 0 to |wakes|
        invariant Steady()
        invariant old(control.repr) <= control.repr && fresh(control.repr - old(control.repr))
        invariant old(logServer.repr) <= logServer.repr && fresh(logServer.repr - old(logServer.repr))
        invariant |history| == i + 1 && |laps| == i && history[0] == old(Here()) && history[i] == Here()
        invariant IsHistory(Config(), history, wakes, laps)
        invariant forall k :: 0 < k < |history| ==> !MayLeave(keepRunning, history[k])
      {
        var timeout := Timeout(wakes[i].started);
        var leave;
        ghost var course;
        leave, course := Iterate(wakes[i]);
        HistoryGoesOn(Config(), history, wakes, laps, Lap(timeout, course), Here());
        history, laps := history + [Here()], laps + [Lap(timeout, course)];
        if leave {
          LeavingCleanedUp();
          AllLeaveUnlessBusy(history);
          return true, history, laps;
        }
      }
      AllLeaveUnlessBusy(history);
    }
  }

  /** How many of the apps are to start automatically. */
  function Autostarts(configs: seq<AppParams>): nat {
    if configs == [] then 0
    else Autostarts(configs[..|configs| - 1]) + (if configs[|configs| - 1].autostart then 1 else 0)
  }

  /** Where in a configuration the apps are that are to start automatically. */
  function AutostartsIn(configs: seq<AppParams>): set<nat> {
    set i | 0 <= i < |configs| && configs[i].autostart
  }

  lemma AutostartsMore(configs: seq<AppParams>, config: AppParams)
    ensures AutostartsIn(configs + [config])
            == if config.autostart then AutostartsIn(configs) + {|configs|} else AutostartsIn(configs)
    ensures |configs| !in AutostartsIn(configs)
  {
  }

  lemma NothingAutostarts()
    ensures AutostartsIn([]) == {}
  {
  }

  lemma {:induction false} AutostartsAreCounted(configs: seq<AppParams>)
    ensures Autostarts(configs) == |AutostartsIn(configs)|
  {
    hide AutostartsIn;
    if configs == [] {
      NothingAutostarts();
    } else {
      var init, last := configs[..|configs| - 1], configs[|configs| - 1];
      assert configs == init + [last];
      AutostartsAreCounted(init);
      AutostartsMore(init, last);
    }
  }

  lemma {:induction false} AutostartsGrow(configs: seq<AppParams>, i: nat)
    requires i <= |configs|
    ensures Autostarts(configs[..i]) <= Autostarts(configs)
    decreases |configs|
  {
    if i < |configs| {
      AutostartsGrow(configs[..|configs| - 1], i);
      assert configs[..|configs| - 1][..i] == configs[..i];
    } else {
      assert configs[..i] == configs;
    }
  }

  lemma AutostartsNext(configs: seq<AppParams>, i: nat)
    requires i < |configs|
    ensures Autostarts(configs[..i + 1]) == Autostarts(configs[..i]) + if configs[i].autostart then 1 else 0
  {
    assert configs[..i + 1][..i] == configs[..i];
  }

  lemma NobodyHoldsAnything(apps: seq<App>)
    requires apps == []
    ensures InPlace(apps) && AllValid(apps) && Accounted(map[], Helds(apps), {}, {}) && LeakedTokens(map[]) == {}
    ensures Autostarts([]) == 0
  {
  }

  lemma NewcomerHoldsNothing(ledger: Ledger, helds: seq<Option<AppRtTokens>>)
    requires Accounted(ledger, helds, {}, {})
    ensures AppClaims(ledger, |helds|, None)
  {
  }

  lemma NewcomerAccounted(a: Ledger, b: Ledger, helds: seq<Option<AppRtTokens>>, held: Option<AppRtTokens>)
    requires Accounted(a, helds, {}, {}) && OthersKept(a, b, AppParty(|helds|)) && AppClaims(b, |helds|, held)
    ensures Accounted(b, helds + [held], {}, {})
  {
    forall j | 0 <= j < |helds| ensures AppClaims(b, j, helds[j]) {
      ClaimKept(a, b, |helds|, j, helds[j]);
    }
  }

  /** Creates the next app of a configuration. That fails exactly if its log buffer cannot be mapped, or it
      is to start automatically and its first launch does not go through. */
  method CreateNext(apps: seq<App>, config: AppParams, host: Kernel.Host, pageSize: nat, slab: MioTokenSlab)
    returns (r: Option<seq<App>>)
    requires InPlace(apps) && AllValid(apps) && slab.Valid() && Accounted(slab.owner, Helds(apps), {}, {})
    requires pageSize > 0
    modifies slab
    ensures slab.Valid()
    ensures r.Some? <==>
              && MmapRingBuffer.Refusal(config.logBufferSize, pageSize).None?
              && (config.autostart ==> Completes(host.launches(0), old(slab.Now())))
    ensures r.Some? ==>
              && |r.value| == |apps| + 1 && r.value[..|apps|] == apps
              && InPlace(r.value) && AllValid(r.value) && Accounted(slab.owner, Helds(r.value), {}, {})
              && slab.Now() == old(slab.Now()).Take(if config.autostart then 3 else 0)
              && var app := r.value[|apps|];
                 && app.AsConfigured(config, host)
                 && fresh(app) && fresh(app.log) && fresh(app.log.mmap.file)
  {
    hide App.Valid, AppClaims, OthersKept, MioTokenSlab.Valid, MioTokenSlab.Now, Accounted, App.AsConfigured,
      Completes;
    if MmapRingBuffer.Refusal(config.logBufferSize, pageSize).Some? {
      return None;
    }
    ghost var ledger, helds := slab.owner, Helds(apps);
    NewcomerHoldsNothing(ledger, helds);
    var app := App.Create(|apps|, config, host, slab);
    if app.None? {
      return None;
    }
    NewcomerAccounted(ledger, slab.owner, helds, Held(app.value.state));
    r := Some(apps + [app.value]);
    assert Helds(r.value) == helds + [Held(app.value.state)];
  }

  /** Creates the apps of a configuration in order, as long as that goes well. */
  method CreateAll(configs: seq<AppParams>, hosts: seq<Kernel.Host>, pageSize: nat, slab: MioTokenSlab)
    returns (r: Option<seq<App>>)
    requires pageSize > 0 && |hosts| == |configs|
    requires slab.Valid() && slab.owner == map[] && slab.failures == 0
    modifies slab
    ensures r.Some? <==>
              && (forall i :: 0 <= i < |configs| ==>
                    && MmapRingBuffer.Refusal(configs[i].logBufferSize, pageSize).None?
                    && (configs[i].autostart ==> Unhindered(hosts[i].launches(0))))
              && 3 * Autostarts(configs) <= slab.capacity
    ensures r.Some? ==>
              && |r.value| == |configs| && InPlace(r.value) && AllValid(r.value)
              && slab.Valid() && Accounted(slab.owner, Helds(r.value), {}, {})
              && slab.Now() == Pool(slab.capacity, 3 * Autostarts(configs), Losses(0, 0))
              && forall i :: 0 <= i < |configs| ==> r.value[i].AsConfigured(configs[i], hosts[i])
  {
    hide InPlace, AllValid, MioTokenSlab.Valid, MioTokenSlab.Now, Accounted, Autostarts, Unhindered,
      MmapRingBuffer.Refusal, App.AsConfigured;
    var apps: seq<App> := [];
    NobodyHoldsAnything(apps);
    for i := 0 to |configs|
      invariant |apps| == i && InPlace(apps) && AllValid(apps)
      invariant forall j :: 0 <= j < i ==>
          && apps[j].AsConfigured(configs[j], hosts[j])
          && MmapRingBuffer.Refusal(configs[j].logBufferSize, pageSize).None?
          && (configs[j].autostart ==> Unhindered(hosts[j].launches(0)))
      invariant slab.Valid() && Accounted(slab.owner, Helds(apps), {}, {})
      invariant slab.Now() == Pool(slab.capacity, 3 * Autostarts(configs[..i]), Losses(0, 0))
      invariant 3 * Autostarts(configs[..i]) <= slab.capacity
    {
      AutostartsNext(configs, i);
      AutostartsGrow(configs, i + 1);
      var more := CreateNext(apps, configs[i], hosts[i], pageSize, slab);
      if more.None? {
        return None;
      }
      apps := more.value;
    }
    assert configs[..|configs|] == configs;
    return Some(apps);
  }

  /** Creates the apps of a configuration, then the daemon around them. It comes up exactly if every log
      buffer can be mapped, no call fails in the first launch of an app to start automatically, and there
      are three tokens for each of these; nothing is lost by then. */
  method Boot(configs: seq<AppParams>, hosts: seq<Kernel.Host>, maxTokens: nat, pageSize: nat, codec: Codec,
      maxControl: nat, maxLogs: nat, keepRunning: bool)
    returns (daemon: Option<Runtime>)
    requires pageSize > 0 && |hosts| == |configs|
    ensures daemon.Some? <==>
              && (forall i :: 0 <= i < |configs| ==>
                    && configs[i].logBufferSize > 0 && configs[i].logBufferSize % pageSize == 0
                    && (configs[i].autostart ==>
                          var launch := hosts[i].launches(0);
                          launch.forks && launch.opens && launch.registered >= 3))
              && 3 * |AutostartsIn(configs)| <= maxTokens
    ensures daemon.Some? ==>
              var d := daemon.value;
              && fresh(d) && d.Steady() && !d.stopping && d.keepRunning == keepRunning
              && d.Here().pool == Pool(maxTokens, 3 * |AutostartsIn(configs)|, Losses(0, 0))
              && d.Here().control == map[] && d.Here().logs == map[] && d.Here().sigints == 0
              && d.Config().codec == codec && d.Config().maxControl == maxControl && d.Config().maxLogs == maxLogs
              && |d.apps| == |configs|
              && forall i :: 0 <= i < |configs| ==>
                  && d.apps[i].params == configs[i] && d.apps[i].log.capacity == configs[i].logBufferSize
                  && (d.apps[i].state.Running? <==> configs[i].autostart)
                  && (d.apps[i].state.Stopped? ==> d.apps[i].state.last.None?)
                  && d.apps[i].consecutiveFailures == d.apps[i].restartCount == 0 && !d.apps[i].stopRequested
                  && d.apps[i].signals == [] && d.apps[i].log.history == []
  {
    hide InPlace, AllValid, MioTokenSlab.Valid, MioTokenSlab.Now, Accounted, Autostarts, AutostartsIn, App.Snap,
      MmapRingBuffer.Refusal, Runtime.Steady, Server.Sessions, LogServer.Feeds;
    AutostartsAreCounted(configs);
    var slab := new MioTokenSlab(maxTokens, RESERVED_MIO_TOKENS);
    var apps := CreateAll(configs, hosts, pageSize, slab);
    if apps.None? {
      return None;
    }
    var d := new Runtime(apps.value, slab, codec, maxControl, maxLogs, keepRunning);
    return Some(d);
  }
}
